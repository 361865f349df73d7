# Framing assistant — a verified model of its estimating and data core

The framing assistant plans wood-framed walls. A project holds walls. Each
wall has a length and a height in feet, a stud spacing (12", 16" or 24"), a
single or double top plate, and a standard or floating bottom plate, which may
be pressure-treated. It may have a corner at each end (California, double or
three-stud), a floor gap, and a load-bearing flag.

From those fields the application counts studs and plates and turns them into
8 ft boards to buy, linear feet and a cost at the configured unit prices. It
validates walls, projects and price updates before they reach the API client.
It keeps an in-memory project table, an undo history and the UI store. This
Dafny project models that core and proves what the code promises about it.

## Layout

One module per source file, plus four helpers:

| file | module | models |
|---|---|---|
| `api_types.dfy` | `ApiTypes` | the records and enumerations the API passes around |
| `js_math.dfy` | `JsMath` | `Math.ceil`, `Math.round`, the truncating `%` |
| `seqs.dfy` | `Seqs` | `filter`, `findIndex`, flat-map over sequences |
| `text.dfy` | `Text` | `trim`, blank strings, `join`, integer to decimal text |
| `validation.dfy` | `Validation` | the "push a message when a check fails" pattern |
| `wall_dimensions.dfy` | `WallDimensions` | stud and plate counts |
| `wall_lumber.dfy` | `WallLumber` | boards to buy, linear feet |
| `wall_costs.dfy` | `WallCosts` | stud, plate and total cost |
| `format.dfy` | `Format` | `feetToFeetInches` |
| `feet_inches_input.dfy` | `FeetInchesInput` | the two-field length input |
| `wall_form.dfy` | `WallForm` | the wall form hook: estimate, validation, submit, presets |
| `wall_item.dfy` | `WallItem` | the figures a wall card shows |
| `project_card.dfy` | `ProjectCard` | project card statistics and relative time |
| `wall_service.dfy` | `WallService` | wall request/wall validation and guarded calls |
| `pricing_service.dfy` | `PricingService` | price validation, defaults, regional presets |
| `project_service.dfy` | `ProjectService` | name rule, statistics, project validation |
| `undo_store.dfy` | `UndoStore` | the bounded undo history |
| `app_store.dfy` | `AppStore` | modals, toasts, preferences, feature flags |
| `mock_adapter.dfy` | `MockAdapter` | the in-memory API client |

## How it is modelled

**Numbers.** JavaScript numbers are exact `real`s, and counts are `int`s.

**Pure calculations.** The wall utilities, the formatter and the card figures
become functions. Lemmas about them state the promises: boards cover the
pieces, the count is monotone in the inputs, the rendering is injective.

**Validators.** Each validator is a method that pushes messages one check at a
time. It is proved equal to a specification function: the messages of the
failing checks, in check order. Its validity is proved to be an
if-and-only-if with a predicate that states the rule outright.

**Stateful parts.** The stores, the hook state, the input component and the
API client are classes with `seq` or `map` fields.
- Each method's `ensures` gives the new state as a function of the old one.
- The properties of those functions are lemmas: bounds kept, the other entries
  untouched, remove undoing add, walls staying with their project under every
  operation but the duplicate.
- The mock client is specified by one function per operation. Each returns the
  new table and the response.
- The services are classes holding the client. Their guard methods fail before
  calling it.

**Parameters.** Fresh ids (`crypto.randomUUID`), timestamps (`Date.now`,
`new Date().toISOString()`) and payloads typed `unknown` become parameters or
the type parameter `D`.

## Model

| member | source | states |
|---|---|---|
| WallDimensions.RegularStuds | src/features/walls/utils/wallDimensions.ts:6-8 | for a positive spacing, the count r is the least r with r·spacing above the length (floor + 1); a spacing ≤ 0 gives 0 |
| WallDimensions.RegularStudsAtLeastOne | src/features/walls/utils/wallDimensions.ts:7 | a non-negative length always gets at least one regular stud |
| WallDimensions.RegularStudsMonotoneInLength | src/features/walls/utils/wallDimensions.ts:7 | a longer wall never needs fewer regular studs |
| WallDimensions.RegularStudsAntitoneInSpacing | src/features/walls/utils/wallDimensions.ts:7 | a wider spacing never needs more regular studs |
| WallDimensions.CornerStudsAt | src/features/walls/utils/wallDimensions.ts:21-28 | a double or California corner adds 2 studs, a three-stud corner 3, no corner 0 |
| WallDimensions.CalculateCornerStuds | src/features/walls/utils/wallDimensions.ts:13-44 | the left and right counts are each end's corner count (2, 3, 2 or 0), and the total is their sum |
| WallDimensions.CornerStudsTotalBounds | src/features/walls/utils/wallDimensions.ts:39-43 | the total is at most 6, is 6 exactly with three-stud corners at both ends, is 0 exactly without corners, and does not depend on which end is which; a double and a three-stud corner give 5, two California corners 4 |
| WallDimensions.CalculatePlateCount | src/features/walls/utils/wallDimensions.ts:49-56 | 2 to 4 plates; exactly 2 for single top on standard bottom, exactly 4 for double top on floating bottom |
| WallDimensions.FeetToInches | src/features/walls/utils/wallDimensions.ts:61-63 | the inches divided by 12 give back the feet |
| WallLumber.PiecesPerBoard | src/features/walls/utils/wallLumber.ts:9 | the largest number of whole pieces one board yields (at least 1) |
| WallLumber.FootageBoards | src/features/walls/utils/wallLumber.ts:12 | the fewest boards whose footage covers the pieces' footage |
| WallLumber.BoardsNeeded | src/features/walls/utils/wallLumber.ts:4-13 | a piece no longer than the stock: the fewest boards giving every piece whole; a longer piece: the fewest boards covering the footage; zero-length pieces need no boards |
| WallLumber.BoardsCoverPieces | src/features/walls/utils/wallLumber.ts:4-13 | the boards bought always cover the pieces' total footage |
| WallLumber.BoardsExactFit | src/features/walls/utils/wallLumber.ts:9-10 | pieces exactly as long as the stock take one board each |
| WallLumber.BoardsAtMostPieces | src/features/walls/utils/wallLumber.ts:9-10 | when pieces fit a board, never more boards than pieces |
| WallLumber.BoardsForNoPieces | src/features/walls/utils/wallLumber.ts:4-13 | no pieces need no boards |
| WallLumber.BoardsMonotoneInPieces | src/features/walls/utils/wallLumber.ts:4-13 | more pieces never need fewer boards |
| WallLumber.BoardsAntitoneInStock | src/features/walls/utils/wallLumber.ts:18-27 | longer stock never needs more boards |
| WallLumber.BoardsExamples | src/features/walls/utils/wallLumber.ts:18-27 | 12 pieces of 8 ft on 8 ft stock take 12 boards, on 16 ft stock 6, and 4 pieces of 20 ft on 8 ft stock 10 |
| WallLumber.BoardLinearFeet | src/features/walls/utils/wallLumber.ts:39-48 | no boards have no footage, and a non-negative count of non-negative boards has non-negative footage |
| WallLumber.PieceFootage | src/features/walls/components/WallItem/WallItem.tsx:41-42 | no pieces have no footage, and non-negative pieces non-negative footage |
| WallLumber.TotalLinearFeet | src/features/walls/utils/wallLumber.ts:32-34 | non-negative stud and plate footage total at least each of them; no plate footage leaves the stud footage |
| WallCosts.SplitPlates | src/features/walls/utils/wallCosts.ts:18-22 | the treated and regular plates add up to the plates, with treated getting the odd one |
| WallCosts.StudCost | src/features/walls/utils/wallCosts.ts:4-6 | no boards cost nothing; boards at a non-negative price cost at least nothing |
| WallCosts.PlateCost | src/features/walls/utils/wallCosts.ts:11-24 | every plate at the plate price unless the wall floats on a treated plate; with equal prices the treated split changes nothing |
| WallCosts.TotalCost | src/features/walls/utils/wallCosts.ts:29-31 | non-negative stud and plate costs total at least each of them; no plate cost leaves the stud cost |
| WallCosts.PlateCostWithoutSplit | src/features/walls/utils/wallCosts.ts:11-24 | unless the wall floats on a treated plate, every plate costs the plate price and the treated price plays no part |
| WallCosts.PlateCostUniformPrice | src/features/walls/utils/wallCosts.ts:11-24 | with equal prices the split makes no difference |
| WallCosts.PlateCostBetweenPrices | src/features/walls/utils/wallCosts.ts:11-24 | with both prices within [lo, hi], the plate cost lies between the plate count times lo and times hi |
| WallCosts.CostsNonNegative | src/features/walls/utils/wallCosts.ts:4-31 | non-negative counts and prices give non-negative stud, plate and total costs |
| WallCosts.StudCostAdditive | src/features/walls/utils/wallCosts.ts:4-6 | the stud cost is additive in the count |
| WallCosts.PlateCostExamples | src/features/walls/utils/wallCosts.ts:18-22 | 4 plates split 2/2, 5 split 3/2; 4 treated floating plates cost 15.50, 4 untreated 14.00 |
| Format.SplitFeetInches | src/shared/utils/format.ts:1-6 | for a non-negative length: non-negative feet and 0–11 inches that total the length rounded to the nearest inch, within half an inch of it |
| Format.FeetToFeetInches | src/shared/utils/format.ts:1-6 | the text is at least five characters and ends with the double prime |
| Format.RenderNonNegative | src/shared/utils/format.ts:1-6 | a non-negative length renders as its rounded inches divided by 12, a prime and a hyphen, the remainder, and a double prime |
| Format.RenderWholeFeet | src/shared/utils/format.ts:1-6 | n whole feet render as n′-0″ |
| Format.RenderInjective | src/shared/utils/format.ts:1-6 | two non-negative lengths render alike exactly when they round to the same number of inches |
| Format.FieldsFromRendering | src/shared/utils/format.ts:1-6 | the feet and the inches can both be read back from the rendered text |
| Format.FormatExamples | src/shared/utils/format.ts:2-4 | 8.5 ft splits into 8 ft 6 in, and 10 ft less 1/16 in rounds up to 10 ft 0 in |
| Format.NegativeSplitExample | src/shared/utils/format.ts:3-4 | a negative length splits into negative feet and inches: −1 in gives −1 ft and −1 in |
| FeetInchesInput.RoundToHundredths | src/shared/components/Inputs/FeetInchesInput.tsx:36-40 | the result is within half a hundredth of the input |
| FeetInchesInput.InitialFields | src/shared/components/Inputs/FeetInchesInput.tsx:32-41 | as written: the floor of the default in feet plus inches in [0, 12], together within half a hundredth of an inch of the default; no default leaves both unset |
| FeetInchesInput.InitialInchesCanReachTwelve | src/shared/components/Inputs/FeetInchesInput.tsx:35-41 | a default just under 10 ft splits into 9 ft and 12.00 in |
| FeetInchesInput.TwelveInchesSurviveFeetEntry | src/shared/components/Inputs/FeetInchesInput.tsx:32-56 | from the as-written split of 10 ft less 1/2400 ft, a feet entry of 5 stands for 6 ft; from the corrected split it stands for 5 ft |
| FeetInchesInput.NormalisedInitialFields | src/shared/components/Inputs/FeetInchesInput.tsx:32-41 | the corrected split: inches in [0, 12), the same length as the split as written, within half a hundredth of an inch of the default |
| FeetInchesInput.InchesEntryNormalised | src/shared/components/Inputs/FeetInchesInput.tsx:57-74 | after any numeric inches entry the inches lie in [0, 12) |
| FeetInchesInput.InchesEntryKeepsLength | src/shared/components/Inputs/FeetInchesInput.tsx:63-67 | folding twelve or more inches into feet keeps the length; a negative entry counts as 0 in |
| FeetInchesInput.InchesEntryFoldsFeet | src/shared/components/Inputs/FeetInchesInput.tsx:63-67 | the feet grow by the whole feet of the entry, or start from them, and the inches keep the remainder |
| FeetInchesInput.SmallInchesEntryKeepsFeet | src/shared/components/Inputs/FeetInchesInput.tsx:68-73 | below 12 in the feet are untouched and a negative entry is clamped to 0 |
| FeetInchesInput.NaNClears | src/shared/components/Inputs/FeetInchesInput.tsx:53-61 | a NaN entry clears only its own field |
| FeetInchesInput.FeetEntryKeepsInches | src/shared/components/Inputs/FeetInchesInput.tsx:53-56 | a feet entry leaves the inches, so the length moves by the feet alone |
| FeetInchesInput.DecimalFeet | src/shared/components/Inputs/FeetInchesInput.tsx:46-50 | feet plus inches over 12, an unset field as 0; its behaviour under entries is stated by InchesEntryKeepsLength and FeetEntryKeepsInches |
| FeetInchesInput.AfterFeetChange | src/shared/components/Inputs/FeetInchesInput.tsx:53-56 | the feet handler; FeetEntryKeepsInches and NaNClears state what it keeps and clears |
| FeetInchesInput.AfterInchesChange | src/shared/components/Inputs/FeetInchesInput.tsx:57-74 | the inches handler; InchesEntryNormalised, InchesEntryKeepsLength, InchesEntryFoldsFeet, SmallInchesEntryKeepsFeet and NaNClears state it |
| FeetInchesInput.FeetInchesField.constructor | src/shared/components/Inputs/FeetInchesInput.tsx:32-44 | the fields start from the split of the default as written, which can show 12 in |
| FeetInchesInput.FeetInchesField.Value | src/shared/components/Inputs/FeetInchesInput.tsx:46-50 | the submitted value is feet plus inches / 12, an unset field counting as 0 |
| FeetInchesInput.FeetInchesField.HandleFeetChange | src/shared/components/Inputs/FeetInchesInput.tsx:53-56 | the fields become the feet handler's result |
| FeetInchesInput.FeetInchesField.HandleInchesChange | src/shared/components/Inputs/FeetInchesInput.tsx:57-74 | the fields become the inches handler's result |
| FeetInchesInput.ExampleEntries | src/shared/components/Inputs/FeetInchesInput.test.tsx:24-49 | 5 ft then 12.5 in shows 6 ft 0.5 in; 8 ft then 6 in stands for 8.5 ft |
| WallForm.BlankCountsAsZero | src/features/walls/hooks/useWallForm.ts:86-87 | an empty length or height estimates exactly like 0 |
| WallForm.ZeroDimensionBuysNothing | src/features/walls/hooks/useWallForm.ts:100-101 | zero height buys no stud boards, zero length no plate boards |
| WallForm.CalculateTotals | src/features/walls/hooks/useWallForm.ts:92-121 | studs are regular plus corner studs, the linear feet are 8 ft per board bought, and the total cost is stud plus plate cost |
| WallForm.CalculateCovers | src/features/walls/hooks/useWallForm.ts:100-106 | with positive dimensions the boards cover every stud at full height and every plate at full length |
| WallForm.DefaultPricesPerBoard | src/features/walls/hooks/useWallForm.ts:109-121 | without loaded pricing, and unless the wall floats on a treated plate, every board costs 3.50 |
| WallForm.BasicErrorsIff | src/features/walls/hooks/useWallForm.ts:140-166 | no field error exactly when the name is not blank and length and height are positive; each failing field shows its own message |
| WallForm.SubmitValues | src/features/walls/hooks/useWallForm.ts:173-185 | the request carries the trimmed name, an empty length or height as 0, and a floor gap exactly when the bottom plate floats: the form's gap, or 0 when it is empty |
| WallForm.SubmitRoundTrip | src/features/walls/hooks/useWallForm.ts:63-75 | a form opened on a trimmed, consistent request and submitted unchanged gives that request back |
| WallForm.InitialFormState | src/features/walls/hooks/useWallForm.ts:63-75 | with no initial values: an empty name, no length, height, corners or gap, 16" spacing, double top, standard untreated bottom, not load-bearing; a given length and height are taken as they are |
| WallForm.Calculate | src/features/walls/hooks/useWallForm.ts:84-121 | the live estimate; BlankCountsAsZero, ZeroDimensionBuysNothing, CalculateTotals, CalculateCovers and DefaultPricesPerBoard state it |
| WallForm.BasicErrors | src/features/walls/hooks/useWallForm.ts:140-166 | the field errors; BasicErrorsIff states them |
| WallForm.PresetLoadBearing | src/features/walls/hooks/useWallForm.ts:191-203 | the load-bearing preset; PresetsKeepNameAndLength, PresetHeights and PresetsIdempotent state it |
| WallForm.PresetNonLoadBearing | src/features/walls/hooks/useWallForm.ts:205-217 | the non-load-bearing preset; stated by the same three lemmas |
| WallForm.PresetBasementFloating | src/features/walls/hooks/useWallForm.ts:219-232 | the basement preset; stated by the same three lemmas |
| WallForm.SubmittedIsSound | src/features/walls/hooks/useWallForm.ts:171-185 | a submitted request has a non-empty, trimmed name and positive length and height |
| WallForm.HeightOr | src/features/walls/hooks/useWallForm.ts:201 | an empty or zero height takes the fallback; any other height is kept |
| WallForm.PresetsKeepNameAndLength | src/features/walls/hooks/useWallForm.ts:191-232 | no preset touches the name or the length |
| WallForm.PresetHeights | src/features/walls/hooks/useWallForm.ts:191-232 | the framing presets keep a set height or use 9/8 ft; the basement preset sets 8 ft and a 2" gap; a positive or unset height ends positive |
| WallForm.PresetsIdempotent | src/features/walls/hooks/useWallForm.ts:191-232 | applying a preset twice is applying it once |
| WallForm.WallFormHook.constructor | src/features/walls/hooks/useWallForm.ts:63-82 | the fields take each initial value or its default, with no field errors |
| WallForm.WallFormHook.ValidateBasics | src/features/walls/hooks/useWallForm.ts:140-166 | records the field errors and returns valid exactly when the three rules hold |
| WallForm.WallFormHook.HandleSubmit | src/features/walls/hooks/useWallForm.ts:169-188 | submits exactly when valid, and then the submit values |
| WallForm.WallFormHook.ApplyPresetLoadBearing | src/features/walls/hooks/useWallForm.ts:191-203 | the fields become the load-bearing preset of the old fields |
| WallForm.WallFormHook.ApplyPresetNonLoadBearing | src/features/walls/hooks/useWallForm.ts:205-217 | the fields become the non-load-bearing preset of the old fields |
| WallForm.WallFormHook.ApplyPresetBasementFloating | src/features/walls/hooks/useWallForm.ts:219-232 | the fields become the basement preset of the old fields |
| WallItem.Figures | src/features/walls/components/WallItem/WallItem.tsx:34-69 | the figures of a wall row; PtPlateRunsIff, BoardTotalCoversLinearFeet, AgreesWithForm and MissingPricingUsesDefaults state them |
| WallItem.BoardTotal | src/features/walls/components/WallItem/WallItem.tsx:160 | non-negative stud and plate boards total at least each of them |
| WallItem.PtPlateRunsIff | src/features/walls/components/WallItem/WallItem.tsx:44-45 | one treated plate run exactly for a floating, pressure-treated bottom plate, else none |
| WallItem.BoardTotalCoversLinearFeet | src/features/walls/components/WallItem/WallItem.tsx:41-69 | the linear feet are stud plus plate footage, and the boards to buy cover each and their sum |
| WallItem.AgreesWithForm | src/features/walls/components/WallItem/WallItem.tsx:53-69 | a wall submitted from the form shows the form's stud, plate, board and cost figures; its board total times 8 is the form's linear feet |
| WallItem.FormFootageCoversItemFootage | src/features/walls/components/WallItem/WallItem.tsx:41-43 | the form's board-based linear feet are at least the card's piece footage |
| WallItem.MissingPricingUsesDefaults | src/features/walls/components/WallItem/WallItem.tsx:48-52 | without pricing the card prices exactly as with 3.50/3.50/4.25 |
| ProjectCard.TotalLength | src/features/projects/components/ProjectCard/ProjectCard.tsx:49 | the sum of the wall lengths; TotalLengthAppend and TotalLengthSign state it |
| ProjectCard.Stats | src/features/projects/components/ProjectCard/ProjectCard.tsx:48-73 | the three card figures; StatsColours and StatsGreyIffNoWalls state them |
| ProjectCard.ElapsedOf | src/features/projects/components/ProjectCard/ProjectCard.tsx:231-242 | the time bucket of an elapsed time; ElapsedBuckets and ElapsedMonotone state it |
| ProjectCard.FormatRelativeTime | src/features/projects/components/ProjectCard/ProjectCard.tsx:231-243 | the relative-time label; FormatRelativeTimeExamples and FormatStartsWithPrefix state it |
| ProjectCard.TimeLabel | src/features/projects/components/ProjectCard/ProjectCard.tsx:133-135 | the card's time label; TimeLabelPrefix states it |
| ProjectCard.TotalLengthAppend | src/features/projects/components/ProjectCard/ProjectCard.tsx:49 | the total length of two wall lists is the sum of their totals |
| ProjectCard.TotalLengthSign | src/features/projects/components/ProjectCard/ProjectCard.tsx:49 | non-negative lengths total at least 0, and above 0 exactly when some wall has length |
| ProjectCard.StatsColours | src/features/projects/components/ProjectCard/ProjectCard.tsx:48-73 | the cost is 5 per foot, each figure is gray exactly when not positive, and length and cost are gray together |
| ProjectCard.StatsGreyIffNoWalls | src/features/projects/components/ProjectCard/ProjectCard.tsx:53-73 | with positive wall lengths every figure is gray exactly when there are no walls |
| ProjectCard.ElapsedBuckets | src/features/projects/components/ProjectCard/ProjectCard.tsx:231-243 | under a minute is "just now", then 1–59 minutes, 1–23 hours, 1–6 days, then the date |
| ProjectCard.ElapsedMonotone | src/features/projects/components/ProjectCard/ProjectCard.tsx:234-242 | a later moment never moves to an earlier bucket or a smaller count |
| ProjectCard.FormatRelativeTimeExamples | src/features/projects/components/ProjectCard/ProjectCard.tsx:238-242 | a future time reads "just now", 90 s "1m ago", 5 h "5h ago", 8 days the date |
| ProjectCard.FormatStartsWithPrefix | src/features/projects/components/ProjectCard/ProjectCard.tsx:238-242 | the label always starts with its prefix |
| ProjectCard.TimeLabelPrefix | src/features/projects/components/ProjectCard/ProjectCard.tsx:133-135 | the card says "Updated" exactly when the project has a non-empty update time, else "Created" |
| Text.Utf16Length | src/shared/services/WallService.ts:73 | the JavaScript `length` of a string: between its characters and twice them, equal to its characters when none is above U+FFFF and twice them when all are |
| Text.Utf16LengthOfEmoji | src/shared/services/WallService.ts:73-74 | 26 emoji are 26 characters but 52 UTF-16 code units |
| WallService.RequestErrors | src/shared/services/WallService.ts:63-104 | the messages of the failing request checks in order; ValidateWallRequest, RequestValidIff and RequestErrorsAtMostFive state them |
| WallService.ValidateWallRequest | src/shared/services/WallService.ts:63-104 | the errors are those of the failing request checks in order, and the request is valid exactly when every present field is in range |
| WallService.PushRangeErrors | src/shared/services/WallService.ts:78-94 | a present measure adds its not-positive and too-large messages |
| WallService.RequestValidIff | src/shared/services/WallService.ts:63-104 | no request errors exactly when the name is non-blank and at most 50 UTF-16 code units, the length in (0, 100], the height in (0, 20], and the gap not negative |
| WallService.RequestBoundaries | src/shared/services/WallService.ts:78-94 | an empty request passes; 100 ft by 20 ft passes; 100.5 ft or a zero height gives exactly one error; 26 emoji (52 code units) are a name too long |
| WallService.RequestErrorsAtMostFive | src/shared/services/WallService.ts:63-104 | a request collects at most five errors |
| WallService.WallErrors | src/shared/services/WallService.ts:133-165 | the messages of the six failing wall checks in order; WallErrorsSpelledOut and WallValidIff state them |
| WallService.ValidateWall | src/shared/services/WallService.ts:133-165 | the errors are those of the six failing wall checks in order, and the wall is valid exactly when acceptable |
| WallService.WallErrorsSpelledOut | src/shared/services/WallService.ts:136-159 | the wall errors are the six checks' messages in check order |
| WallService.WallValidIff | src/shared/services/WallService.ts:133-165 | no wall errors exactly when: a name, positive dimensions, no negative gap, no 24" spacing under load, a gap under a floating plate |
| WallService.WallHasNoUpperBounds | src/shared/services/WallService.ts:140-146 | once positive, length and height do not affect a wall's errors |
| WallService.WallBusinessRules | src/shared/services/WallService.ts:152-159 | on an otherwise sound wall, each business rule reports its own message, in order when both apply |
| WallService.PresetsAreValidRequests | src/shared/services/WallService.ts:167-201 | the three presets pass request validation |
| WallService.PresetsAgreeWithForm | src/shared/services/WallService.ts:167-201 | the form's preset buttons choose the same framing as the service's presets |
| WallService.PresetFormsSubmitValidWalls | src/features/walls/hooks/useWallForm.ts:191-232 | a named form with a positive length, put through any preset and submitted, gives a wall the wall checks accept |
| WallService.SubmittedWallValid | src/features/walls/hooks/useWallForm.ts:169-185 | a form passing its checks, not load-bearing on 24", and without a negative gap under a floating plate, submits an acceptable wall |
| WallService.WallService.GetWalls | src/shared/services/WallService.ts:11-17 | the client's walls of the project or the client's error; each wall is owned by the project whenever the client's table keeps walls with their projects |
| WallService.WallService.GetWall | src/shared/services/WallService.ts:19-25 | the client's wall with that id in that project, or the error; owned by the project whenever the table keeps walls with their projects |
| WallService.WallService.CreateWall | src/shared/services/WallService.ts:27-39 | an invalid request fails with its errors joined by ", " and stores nothing; a valid one is the client's create |
| WallService.WallService.UpdateWall | src/shared/services/WallService.ts:41-53 | the same guard in front of the client's update |
| WallService.WallService.DeleteWall | src/shared/services/WallService.ts:55-60 | the client's delete, unvalidated |
| WallService.CreatedWallsPassedTheRules | src/shared/services/WallService.ts:27-39 | every wall created through the service is in range |
| WallService.WallService.constructor | src/shared/services/WallService.ts:7-9 | the service holds the client it is given |
| PricingService.PushCostErrors | src/shared/services/PricingService.ts:40-47 | a present price adds its negative and too-high messages |
| PricingService.PricingErrors | src/shared/services/PricingService.ts:34-71 | the messages of the failing price checks in order; PricingValidIff and PricingErrorsAtMostThree state them |
| PricingService.ValidatePricingConfig | src/shared/services/PricingService.ts:34-71 | the errors are those of the failing price checks in order, and valid exactly when every present price is in [0, 100] |
| PricingService.CostErrorsIff | src/shared/services/PricingService.ts:40-47 | a price reports nothing exactly when acceptable, and never two messages |
| PricingService.PricingValidIff | src/shared/services/PricingService.ts:34-71 | no errors exactly when every present price is in [0, 100], both ends included |
| PricingService.PricingErrorsAtMostThree | src/shared/services/PricingService.ts:34-71 | an update collects at most three errors |
| PricingService.PricingErrorExamples | src/shared/services/PricingService.ts:40-65 | an empty update passes; a negative or too-high price reports only its own message |
| PricingService.AsPricingPatch | src/shared/services/PricingService.ts:82-88 | a full configuration as an update replaces any current prices |
| PricingService.RegionalPricingPresets | src/shared/services/PricingService.ts:90-113 | four regions, each keyed by its name and holding its prices |
| PricingService.PresetsAreAcceptable | src/shared/services/PricingService.ts:82-113 | the default and every regional preset pass the price rules; studs and plates cost alike; treated plates cost at least as much |
| PricingService.PricingService.GetPricingConfig | src/shared/services/PricingService.ts:11-17 | the client's configuration |
| PricingService.PricingService.UpdatePricingConfig | src/shared/services/PricingService.ts:19-31 | an out-of-range update fails with its joined errors and keeps the prices; an acceptable one is merged |
| PricingService.PricingService.GetDefaultPricingConfig | src/shared/services/PricingService.ts:82-88 | 3.50 / 3.50 / 4.25, which the price rules accept |
| PricingService.AcceptedUpdatesKeepPricesInRange | src/shared/services/PricingService.ts:19-31 | merging an accepted update over in-range prices keeps every price in range |
| PricingService.PricingService.constructor | src/shared/services/PricingService.ts:7-9 | the service holds the client it is given |
| ProjectService.NameRejection | src/shared/services/ProjectService.ts:29-35 | a name is refused exactly when it is blank or longer than 100 UTF-16 code units |
| ProjectService.NameRejectionIsFirstNameError | src/shared/services/ProjectService.ts:101-107 | the creation guard and the name checks of project validation agree, and the error thrown is the first collected |
| ProjectService.Sum | src/shared/services/ProjectService.ts:89-92 | the sum of a wall measure; StatsBounds, TotalLengthPositive and the Stats lemmas state it |
| ProjectService.Stats | src/shared/services/ProjectService.ts:86-95 | the wall count, at least as many walls as load-bearing walls, and 0 length and 0 mean height without walls |
| ProjectService.StatsBounds | src/shared/services/ProjectService.ts:90-93 | the mean height lies between the lowest and the highest bound of the wall heights |
| ProjectService.TotalLengthPositive | src/shared/services/ProjectService.ts:89 | positive wall lengths total a positive length |
| ProjectService.StatsAfterCreateWall | src/shared/services/ProjectService.ts:86-95 | creating a wall adds one wall, its length to the total and one load-bearing wall when it bears load |
| ProjectService.StatsAfterDeleteWall | src/shared/services/ProjectService.ts:86-95 | deleting a wall takes away one wall, its length and its load-bearing count |
| ProjectService.DuplicateHasSameStats | src/shared/services/ProjectService.ts:86-95 | a duplicate, as written or corrected, has the statistics of its original |
| ProjectService.WallIssuesIff | src/shared/services/ProjectService.ts:111-119 | a wall reports nothing exactly when it has a name and positive dimensions, and at most three messages |
| ProjectService.WallsIssuesIff | src/shared/services/ProjectService.ts:110-120 | the walls report nothing exactly when every wall is sound, and at most three messages each |
| ProjectService.ProjectValidIff | src/shared/services/ProjectService.ts:98-126 | a project has no errors exactly when its name is non-blank and at most 100 UTF-16 code units and every wall is sound |
| ProjectService.AcceptedWallsAreSound | src/shared/services/ProjectService.ts:110-120 | a wall the wall checks accept passes the project's wall checks |
| ProjectService.PushWallIssues | src/shared/services/ProjectService.ts:111-119 | one wall adds its messages |
| ProjectService.PushWallsIssues | src/shared/services/ProjectService.ts:110-120 | the loop adds every wall's messages, wall by wall |
| ProjectService.ProjectErrors | src/shared/services/ProjectService.ts:98-126 | the name errors then every wall's messages; ProjectValidIff states them |
| ProjectService.ValidateProject | src/shared/services/ProjectService.ts:98-126 | the errors are the name errors then the walls' messages, and valid exactly when the project is acceptable |
| ProjectService.ArchiveTogglesListing | src/shared/services/ProjectService.ts:77-83 | archiving a project drops it from the listing and unarchiving brings it back |
| ProjectService.ProjectService.constructor | src/shared/services/ProjectService.ts:7-9 | the service holds the client it is given |
| ProjectService.ProjectService.GetProjects | src/shared/services/ProjectService.ts:11-17 | the projects that are not archived |
| ProjectService.ProjectService.GetProject | src/shared/services/ProjectService.ts:19-25 | the project with that id, or the client's error |
| ProjectService.ProjectService.CreateProject | src/shared/services/ProjectService.ts:27-42 | a refused name fails with its error and stores nothing; a good name is appended as a fresh project |
| ProjectService.ProjectService.UpdateProject | src/shared/services/ProjectService.ts:44-60 | a present name must pass the rule; otherwise the client's update |
| ProjectService.ProjectService.DeleteProject | src/shared/services/ProjectService.ts:62-67 | the client's delete |
| ProjectService.ProjectService.DuplicateProject | src/shared/services/ProjectService.ts:69-75 | the client's duplicate as written, copied walls taking the drawn project ids |
| ProjectService.ProjectService.ArchiveProject | src/shared/services/ProjectService.ts:77-79 | an update setting the archived flag; the result is not listed |
| ProjectService.ProjectService.UnarchiveProject | src/shared/services/ProjectService.ts:81-83 | an update clearing the archived flag; the result is listed |
| UndoStore.Added | src/shared/store/undoStore.ts:41 | the new action first, then the earlier ones in order, cut at the bound |
| UndoStore.Lookup | src/shared/store/undoStore.ts:47 | the first action with that id, or none exactly when no action has it |
| UndoStore.WithoutId | src/shared/store/undoStore.ts:50 | every action without that id is kept and nothing else |
| UndoStore.WithoutType | src/shared/store/undoStore.ts:60 | every action of another type is kept and nothing else |
| UndoStore.Recent | src/shared/store/undoStore.ts:71-75 | the newest action, of the given type when one is given; none exactly when there is no such action |
| UndoStore.RecentIsFirstOfType | src/shared/store/undoStore.ts:73-74 | the newest action of a type is the first of that type in the list |
| UndoStore.AddedStaysBounded | src/shared/store/undoStore.ts:41 | a list within the bound stays within it; a full list drops its oldest action |
| UndoStore.UndoUnknownKeepsList | src/shared/store/undoStore.ts:46-54 | undoing an unknown id finds nothing and keeps the list |
| UndoStore.UndoRemovesOnlyThatId | src/shared/store/undoStore.ts:50 | undoing keeps every other action exactly as often, and none with that id |
| UndoStore.ClearByTypeKeepsOthers | src/shared/store/undoStore.ts:58-61 | clearing a type keeps every other action exactly as often, and none of that type |
| UndoStore.UndoAfterAdd | src/shared/store/undoStore.ts:32-54 | undoing the action just added hands it back and restores the list |
| UndoStore.UndoHistory.constructor | src/shared/store/undoStore.ts:29-30 | empty, with a bound of ten |
| UndoStore.UndoHistory.AddAction | src/shared/store/undoStore.ts:32-44 | the list becomes the added list and stays within the bound |
| UndoStore.UndoHistory.Undo | src/shared/store/undoStore.ts:46-54 | returns the first action with the id and removes every action with it |
| UndoStore.UndoHistory.ClearActions | src/shared/store/undoStore.ts:56 | the list becomes empty |
| UndoStore.UndoHistory.ClearActionsByType | src/shared/store/undoStore.ts:58-61 | the list keeps the actions of other types |
| AppStore.FlagValue | src/shared/store/appStore.ts:149-150 | a flag is on exactly when the map holds it as on |
| AppStore.Opened | src/shared/store/appStore.ts:80-86 | the modal is open with its type and data, and the other modals are as before |
| AppStore.Closed | src/shared/store/appStore.ts:88-93 | the modal is gone and the others are as before |
| AppStore.WithToast | src/shared/store/appStore.ts:98-101 | the toast with its fresh id goes after the existing ones |
| AppStore.WithoutToast | src/shared/store/appStore.ts:103-106 | every toast without that id is kept and nothing else |
| AppStore.WithFlag | src/shared/store/appStore.ts:116-122 | the flag takes the new value and every other flag keeps its value |
| AppStore.DefaultFlags | src/shared/store/appStore.ts:64-69 | advanced calculations and exports on, collaboration and unknown flags off |
| AppStore.CloseUndoesOpen | src/shared/store/appStore.ts:80-93 | closing a modal just opened under a new id restores the modals |
| AppStore.RemoveUndoesAdd | src/shared/store/appStore.ts:98-106 | removing the toast just added restores the queue |
| AppStore.RemoveToastKeepsOthers | src/shared/store/appStore.ts:103-106 | removing a toast keeps every other toast exactly as often |
| AppStore.AppState.constructor | src/shared/store/appStore.ts:59-71 | the default state |
| AppStore.AppState.FeatureFlag | src/shared/store/appStore.ts:149-150 | on exactly when the map holds the flag as on |
| AppStore.AppState.OpenModal | src/shared/store/appStore.ts:80-86 | the modals become the opened map; nothing else changes |
| AppStore.AppState.CloseModal | src/shared/store/appStore.ts:88-93 | the modals become the closed map; nothing else changes |
| AppStore.AppState.CloseAllModals | src/shared/store/appStore.ts:95 | no modals; nothing else changes |
| AppStore.AppState.AddToast | src/shared/store/appStore.ts:98-101 | the toast is appended; nothing else changes |
| AppStore.AppState.RemoveToast | src/shared/store/appStore.ts:103-106 | the toasts with that id are removed; nothing else changes |
| AppStore.AppState.ClearAllToasts | src/shared/store/appStore.ts:108 | no toasts; nothing else changes |
| AppStore.AppState.SetSidebarCollapsed | src/shared/store/appStore.ts:111 | only the sidebar flag changes |
| AppStore.AppState.SetTheme | src/shared/store/appStore.ts:113 | only the theme changes |
| AppStore.AppState.SetFeatureFlag | src/shared/store/appStore.ts:116-122 | the flag reads as the new value and every other flag as before |
| AppStore.AppState.SetCurrentUser | src/shared/store/appStore.ts:125 | only the current user changes |
| MockAdapter.ProjectIndex | src/shared/api/adapters/mock.adapter.ts:106 | the first project with that id, or none exactly when no project has it |
| MockAdapter.WallIndex | src/shared/api/adapters/mock.adapter.ts:260 | the first wall with that id, or none exactly when no wall has it |
| MockAdapter.RemoveAt | src/shared/api/adapters/mock.adapter.ts:138 | one element shorter, the elements before kept and those after moved down by one |
| MockAdapter.PatchProject | src/shared/api/adapters/mock.adapter.ts:115-119 | id, creation time and walls stay; present keys overwrite; the update time is now |
| MockAdapter.PatchWall | src/shared/api/adapters/mock.adapter.ts:269-272 | each present key of the patch overwrites the wall's field, each absent one keeps it, and the id and the owner stay |
| MockAdapter.PatchWallLaws | src/shared/api/adapters/mock.adapter.ts:269-272 | an empty patch changes nothing, a full request as a patch rebuilds the wall from it under the same ids, and patching twice is patching once |
| MockAdapter.MergePricing | src/shared/api/adapters/mock.adapter.ts:320 | each present price overwrites and each absent one is kept |
| MockAdapter.MergePricingLaws | src/shared/api/adapters/mock.adapter.ts:320 | an empty update changes nothing, merging twice is merging once, and a full update replaces everything |
| MockAdapter.SeedProjects | src/shared/api/adapters/mock.adapter.ts:15-47 | the two seeded projects; SeedWallsBelong states that their walls belong to them |
| MockAdapter.GetProjectOp | src/shared/api/adapters/mock.adapter.ts:71-85 | the lookup; UnknownProjectChangesNothing and MockApiClient.GetProject state it |
| MockAdapter.UpdateProjectOp | src/shared/api/adapters/mock.adapter.ts:104-125 | the update; UpdateProjectTouchesOnlyTarget and UpdateProjectKeepsWallsOwned state it |
| MockAdapter.DeleteProjectOp | src/shared/api/adapters/mock.adapter.ts:127-143 | the delete; DeleteProjectRemovesFirstMatch and DeleteProjectKeepsWallsOwned state it |
| MockAdapter.DuplicatedAsWritten | src/shared/api/adapters/mock.adapter.ts:156-168 | the copy as written; CopiedWallsAsWritten and DuplicateAppendsCopy state it |
| MockAdapter.Duplicated | src/shared/api/adapters/mock.adapter.ts:156-168 | the corrected copy; CopiedWalls and DuplicateIntendedAppendsOwnedCopy state it |
| MockAdapter.DuplicateProjectOp | src/shared/api/adapters/mock.adapter.ts:145-175 | the duplicate as written; DuplicateAppendsCopy and DuplicateAsWrittenOrphansWalls state it |
| MockAdapter.DuplicateProjectIntendedOp | src/shared/api/adapters/mock.adapter.ts:145-175 | the corrected duplicate; DuplicateIntendedAppendsOwnedCopy and DuplicatedKeepsWallsOwned state it |
| MockAdapter.GetWallsOp | src/shared/api/adapters/mock.adapter.ts:177-191 | the wall listing; MockApiClient.GetWalls states it |
| MockAdapter.GetWallOp | src/shared/api/adapters/mock.adapter.ts:193-217 | the wall lookup; MockApiClient.GetWall and UnknownWallChangesNothing state it |
| MockAdapter.CreateWallOp | src/shared/api/adapters/mock.adapter.ts:219-243 | the wall create; CreateWallAppends and CreateWallKeepsWallsOwned state it |
| MockAdapter.UpdateWallOp | src/shared/api/adapters/mock.adapter.ts:245-279 | the wall update; UpdateWallTouchesOnlyTarget and UpdateWallKeepsWallsOwned state it |
| MockAdapter.DeleteWallOp | src/shared/api/adapters/mock.adapter.ts:281-308 | the wall delete; DeleteWallRemovesFirstMatch and DeleteWallKeepsWallsOwned state it |
| MockAdapter.CopiedWallsAsWritten | src/shared/api/adapters/mock.adapter.ts:163-167 | as written: one copy per wall, the k-th under the k-th fresh wall id and the k-th drawn project id, every other field as in the original |
| MockAdapter.DuplicateAsWrittenOrphansWalls | src/shared/api/adapters/mock.adapter.ts:163-167 | as written, a copied wall given a project id other than the copy's breaks the rule that walls belong to their project |
| MockAdapter.CopiedWalls | src/shared/api/adapters/mock.adapter.ts:163-167 | corrected: each copied wall is the original under its fresh id, owned by the copy |
| MockAdapter.DuplicatedKeepsWallsOwned | src/shared/api/adapters/mock.adapter.ts:156-170 | corrected: appending the corrected duplicate keeps every wall with its project |
| MockAdapter.UnknownProjectChangesNothing | src/shared/api/adapters/mock.adapter.ts:106-113 | an unknown project id answers "Project not found" from every operation and changes nothing |
| MockAdapter.UnknownWallChangesNothing | src/shared/api/adapters/mock.adapter.ts:260-267 | an unknown wall id answers "Wall not found" and changes nothing |
| MockAdapter.UpdateProjectTouchesOnlyTarget | src/shared/api/adapters/mock.adapter.ts:104-125 | only the matched project changes; its id, creation time and walls stay and it takes the new name |
| MockAdapter.DeleteProjectRemovesFirstMatch | src/shared/api/adapters/mock.adapter.ts:127-143 | exactly the first match is removed and the rest keep their order |
| MockAdapter.DuplicateAppendsCopy | src/shared/api/adapters/mock.adapter.ts:145-175 | as written: one copy is appended, the stored projects untouched; the copy has a fresh id, a " (Copy)" name, both times now, is not archived, and holds the original's walls under fresh ids, each with its drawn project id |
| MockAdapter.DuplicateIntendedAppendsOwnedCopy | src/shared/api/adapters/mock.adapter.ts:156-170 | corrected: the duplicate is the as-written one with every drawn project id the copy's own, and every copied wall is owned by the copy |
| MockAdapter.CreateWallAppends | src/shared/api/adapters/mock.adapter.ts:219-243 | the wall is appended to its project, whose update time is set; the other projects are untouched |
| MockAdapter.UpdateWallTouchesOnlyTarget | src/shared/api/adapters/mock.adapter.ts:245-279 | only the matched wall changes, to the original patched by the update; the project's update time is now and its other fields stay |
| MockAdapter.DeleteWallRemovesFirstMatch | src/shared/api/adapters/mock.adapter.ts:281-308 | exactly that wall leaves its project |
| MockAdapter.UpdateProjectKeepsWallsOwned | src/shared/api/adapters/mock.adapter.ts:115-119 | updating a project keeps every wall with its project |
| MockAdapter.DeleteProjectKeepsWallsOwned | src/shared/api/adapters/mock.adapter.ts:138 | deleting a project keeps every wall with its project |
| MockAdapter.CreateWallKeepsWallsOwned | src/shared/api/adapters/mock.adapter.ts:230-236 | a created wall is owned by the project it joins |
| MockAdapter.UpdateWallKeepsWallsOwned | src/shared/api/adapters/mock.adapter.ts:269-272 | patching a wall never changes its owner |
| MockAdapter.DeleteWallKeepsWallsOwned | src/shared/api/adapters/mock.adapter.ts:301 | deleting a wall keeps the others with their projects |
| MockAdapter.SeedWallsBelong | src/shared/api/adapters/mock.adapter.ts:15-47 | the seeded table keeps every wall with its project |
| MockAdapter.MockApiClient.constructor | src/shared/api/adapters/mock.adapter.ts:59-60 | the seeded projects and prices, every wall owned by its project |
| MockAdapter.MockApiClient.GetProjects | src/shared/api/adapters/mock.adapter.ts:62-69 | the projects not archived, with a total counting archived ones too |
| MockAdapter.MockApiClient.GetProject | src/shared/api/adapters/mock.adapter.ts:71-85 | the first project with that id; "Project not found" exactly when there is none |
| MockAdapter.MockApiClient.CreateProject | src/shared/api/adapters/mock.adapter.ts:87-102 | a fresh project without walls is appended |
| MockAdapter.MockApiClient.UpdateProject | src/shared/api/adapters/mock.adapter.ts:104-125 | performs the update outcome; walls that all belonged to their project still do |
| MockAdapter.MockApiClient.DeleteProject | src/shared/api/adapters/mock.adapter.ts:127-143 | performs the delete outcome; walls that all belonged to their project still do |
| MockAdapter.MockApiClient.DuplicateProject | src/shared/api/adapters/mock.adapter.ts:145-175 | performs the duplicate as written; when the original has walls and the first drawn project id is not the copy's, walls no longer all belong to their project |
| MockAdapter.MockApiClient.GetWalls | src/shared/api/adapters/mock.adapter.ts:177-191 | the project's walls, or "Project not found"; each is owned by the project whenever the table keeps walls with their projects |
| MockAdapter.MockApiClient.GetWall | src/shared/api/adapters/mock.adapter.ts:193-217 | the wall with that id in that project, or the matching not-found error; owned by the project whenever the table keeps walls with their projects |
| MockAdapter.MockApiClient.CreateWall | src/shared/api/adapters/mock.adapter.ts:219-243 | performs the create outcome; walls that all belonged to their project still do |
| MockAdapter.MockApiClient.UpdateWall | src/shared/api/adapters/mock.adapter.ts:245-279 | performs the wall update outcome; walls that all belonged to their project still do |
| MockAdapter.MockApiClient.DeleteWall | src/shared/api/adapters/mock.adapter.ts:281-308 | performs the wall delete outcome; walls that all belonged to their project still do |
| MockAdapter.MockApiClient.GetPricingConfig | src/shared/api/adapters/mock.adapter.ts:310-316 | the current prices |
| MockAdapter.MockApiClient.UpdatePricingConfig | src/shared/api/adapters/mock.adapter.ts:318-325 | the prices become the merge of the update over them; projects untouched |

## Findings

| source | as written | input that shows it | evidently intended | confidence | as-written member | corrected member |
|---|---|---|---|---|---|---|
| src/shared/api/adapters/mock.adapter.ts:163-167 | a duplicated project's walls each get `projectId: crypto.randomUUID()`, a fresh random id | duplicating any project that has a wall: the copied wall names a project id no project has | each copied wall's `projectId` is the copy's new id, as the offline adapter does (src/shared/api/adapters/offline.adapter.ts:199-207) | not executed; high | MockAdapter.DuplicateAsWrittenOrphansWalls | MockAdapter.DuplicatedKeepsWallsOwned |
| src/shared/components/Inputs/FeetInchesInput.tsx:35-41 | the initial inches are the fractional foot times 12, rounded to hundredths, and can round up to 12 | a default of 10 − 1/2400 ft (9.99958 ft) starts the fields at 9 ft 12 in | a rounding that reaches 12 inches carries into the feet (10 ft 0 in), as the inches handler does for entries of 12 or more | not executed; medium | FeetInchesInput.InitialInchesCanReachTwelve | FeetInchesInput.NormalisedInitialFields |

`MockAdapter.MockApiClient.DuplicateProject` and
`FeetInchesInput.FeetInchesField.constructor` behave as the code is written.
The corrected definitions stand beside them with their properties proved:
`MockAdapter.Duplicated` and `MockAdapter.DuplicateProjectIntendedOp`
(`MockAdapter.DuplicateIntendedAppendsOwnedCopy`), and
`FeetInchesInput.NormalisedInitialFields`
(`FeetInchesInput.TwelveInchesSurviveFeetEntry` shows the difference a later
feet entry makes).

## Left out

- Floating point: numbers are exact reals. `NaN` is modelled only where the feet/inches input reacts to it (`NumEntry.NaN`). `Infinity` and `Number.isFinite` are not modelled, so the wall form's finiteness test reduces to its positivity test.
- `WallLumber.BoardsNeeded` requires a positive stock length; every caller passes 8 ft. A zero piece length, which JavaScript turns into `Infinity` pieces per board and so 0 boards, is stated explicitly as 0.
- Display formatting: `toFixed`, `toLocaleString`, the JSX layout, icons and colours beyond the three stat colour names.
- Date parsing and the clock: `formatRelativeTime` takes the elapsed milliseconds, the locale date text as a parameter, and `TimeLabel` takes the time of a timestamp as a function.
- `crypto.randomUUID`, `Date.now` and ISO timestamps are parameters of the operations that use them.
- The payloads typed `unknown` (undo actions, modal data) are a type parameter.
- The simulated network delay, promises and `async` sequencing. Calls are atomic and run one at a time.
- Aliasing in the mock client: the table is a value, so the model does not capture shared objects. `getProject`, `getWalls` and `getWall` hand out the stored objects, and a later `createWall` (`project.walls.push`) or `updateWall` (`project.walls[wallIndex] = …`) changes arrays a caller already holds; in the model a returned value never changes. `[...mockProjects]` copies only the array, so every client shares the seed `Project` objects, and one client's wall changes reach the others; the model gives each client its own table.
- Walls belonging to their project: every operation except `duplicateProject` keeps it, and the client starts with it, but the duplicate as written breaks it. So `MockAdapter.MockApiClient.GetWalls`, `MockAdapter.MockApiClient.GetWall` and the matching service methods promise ownership only while it holds.
- ProjectService.ProjectService.GetProjects and PricingService.PricingService.GetPricingConfig are proved always to succeed, because the services hold the in-memory client only, whose listing and price reads never fail. Their own `throw new Error(response.error || 'Failed to …')` paths (ProjectService.ts:13-15, PricingService.ts:13-15) are therefore unreachable in the model; `ApiTypes.OrFallback` states that path for any failed response. The offline adapter the application uses by default and the live adapter are not part of this model.
- The live and offline adapters, React Query hooks, the zustand `persist`/`devtools` middleware and the selectors that only read one field.
- `WallService.calculateWallMaterials` and `PricingService.calculateWallCost` are placeholders that return zeros; they are not modelled.
- The response `data` sent with a failure (`null`, `[]`) is not modelled; a failure is `Failure(error)`.
- `ApiTypes.OrFallback` models `response.error || fallback`. An empty error string takes the fallback.
- The form's `leftCorner || undefined` and `Number(...)` conversions are the identity on the typed values the form holds, so they are not modelled separately.
