# Spreadsheet formula engine

A model of the formula engine of a small console spreadsheet in Java. The
grid is `rows` x `cols` cells. Each cell holds the formula it was last given,
upper-cased and without its `=`, and the text it displays. `put` stores a
literal or a formula and `get` reads a displayed value. A formula is one of:

- a range function, `SUMME`, `MIN`, `MAX` or `MITTELWERT`, over a block such
  as `A1:B3`;
- an integer expression with `+ - * / ^`, parentheses, numbers and cell
  references. It is converted to postfix by the shunting-yard algorithm and
  evaluated with Java's 64-bit `long` arithmetic.

A division by zero shows `#DIV/0!`. Every other fault shows `#ERR`. An
address that is not a cell of the grid is the only fault that `put` and
`get` report to their caller.

The project has two layers:

- **Value model.** These modules hold the value model:
  - `Sheets`: a grid value holding a formula and a value per cell;
  - `Addresses`, `Lexer`, `ShuntingYard`, `PostfixEval`, `Aggregates`, `Formulas`: every step of the engine as a function of that grid.
- **Imperative model.** `Cells.Cell` and `Engine.Spreadsheet` are classes with the Java fields, updated in place.
  - A ghost field `sheet` mirrors the cells.
  - Each method is proved to return, or to leave behind, the corresponding function of that grid.
  - The loops of `toRPN`, `evalRPN`, `valuesOf`, `sum`, `min`, `max`, `avg` and the constructor are loops with invariants.

The properties are lemmas over the value model:

- modules `ConversionLaws`, `Expressions`, `RangeCalls`;
- the concrete formulas in `Scenarios`;
- the cells the demo driver fills, in `Demo`.

## Model

| member | source | states |
|---|---|---|
| Cells.Cell.constructor | spreadsheet/src/domain/Cell.java:9-12 | a new cell has the empty formula and the empty value |
| Cells.Cell.GetFormula | spreadsheet/src/domain/Cell.java:14-16 | returns the stored formula |
| Cells.Cell.SetFormula | spreadsheet/src/domain/Cell.java:23-27 | a non-empty input is stored upper-cased without its first character; an empty input leaves the old formula; the value is untouched |
| Cells.Cell.GetValue | spreadsheet/src/domain/Cell.java:29-31 | returns the stored value |
| Cells.Cell.SetValue | spreadsheet/src/domain/Cell.java:33-35 | the value becomes the argument, the formula is untouched |
| Cells.Cell.IsEmpty | spreadsheet/src/domain/Cell.java:45-47 | true exactly when the value is the empty text |
| Engine.Spreadsheet.constructor | spreadsheet/src/domain/Spreadsheet.java:26-34 | the nested loops give every position a distinct new cell; the array and all its cells are new; the grid is the empty grid of the given size |
| Engine.Spreadsheet.Get | spreadsheet/src/domain/Spreadsheet.java:39-42 | equals `Formulas.Get` of the mirrored grid: the named cell's value, or `InvalidAddress` |
| Engine.Spreadsheet.Put | spreadsheet/src/domain/Spreadsheet.java:48-51 | fails, leaving the grid unchanged, exactly when `Formulas.Put` fails; otherwise the new grid is `Formulas.Put`'s |
| Engine.Spreadsheet.GetAt | spreadsheet/src/domain/Spreadsheet.java:114-116 | the value of the cell at (row, col) in the mirrored grid |
| Engine.Spreadsheet.PutAt | spreadsheet/src/domain/Spreadsheet.java:118-129 | the new grid is `Formulas.PutAt` of the old one; the cells stay distinct and mirrored |
| Engine.Spreadsheet.EvaluateCell | spreadsheet/src/domain/Spreadsheet.java:187-218 | only the cell's value changes, to `CellValue` of its formula against the grid before the call |
| Engine.Spreadsheet.EvaluateFormula | spreadsheet/src/domain/Spreadsheet.java:191-210 | the four prefix tests in order, then the expression, then the empty text, equal `Formulas.Evaluate` |
| Engine.Spreadsheet.RangeCall | spreadsheet/src/domain/Spreadsheet.java:193-204 | insideOf, then the chosen aggregation, equals `Formulas.RangeValue` |
| Engine.Spreadsheet.Sum | spreadsheet/src/domain/Spreadsheet.java:229-233 | the numbers of the range reduced by the wrapping sum, or the first fault |
| Engine.Spreadsheet.Min | spreadsheet/src/domain/Spreadsheet.java:235-241 | the numbers of the range reduced by `Minimum`, or the first fault |
| Engine.Spreadsheet.Max | spreadsheet/src/domain/Spreadsheet.java:243-249 | the numbers of the range reduced by `Maximum`, or the first fault |
| Engine.Spreadsheet.Avg | spreadsheet/src/domain/Spreadsheet.java:251-256 | the numbers of the range reduced by `Mittelwert`, or the first fault |
| Engine.Total | spreadsheet/src/domain/Spreadsheet.java:230-232 | the accumulator loop computes `RunningSum`, the sum wrapped to a long |
| Engine.Smallest | spreadsheet/src/domain/Spreadsheet.java:236-240 | the loop from `Long.MAX_VALUE` with the `any` flag equals `Reduce(Minimum)`: the least number, `EmptyRange` for none |
| Engine.Largest | spreadsheet/src/domain/Spreadsheet.java:244-248 | the loop from `Long.MIN_VALUE` equals `Reduce(Maximum)`: the greatest number, `EmptyRange` for none |
| Engine.Mean | spreadsheet/src/domain/Spreadsheet.java:252-255 | the wrapping sum and count loop equals `Reduce(Mittelwert)`: the rounded quotient, `EmptyRange` for none |
| Engine.Spreadsheet.ValuesOf | spreadsheet/src/domain/Spreadsheet.java:259-270 | parseRange, then the two loops, equals `Aggregates.ValuesOf` of the mirrored grid |
| Engine.Spreadsheet.Collect | spreadsheet/src/domain/Spreadsheet.java:262-268 | the outer loop over the block's rows yields `RangeValues` |
| Engine.Spreadsheet.AddRow | spreadsheet/src/domain/Spreadsheet.java:262-268 | one row appended to the numbers above it; a fault in it is the whole block's fault |
| Engine.Spreadsheet.CollectRow | spreadsheet/src/domain/Spreadsheet.java:263-267 | the inner loop skips blank cells and parses the rest, giving `RowValues` |
| Engine.Spreadsheet.EvalExpression | spreadsheet/src/domain/Spreadsheet.java:274-278 | toRPN, evalRPN and `String.valueOf` together equal `ExpressionValue` rendered in decimal |
| Engine.Spreadsheet.ToRpn | spreadsheet/src/domain/Spreadsheet.java:284-321 | the main loop over the tokens and the final drain equal `ToPostfix` on the normalised formula |
| Engine.Spreadsheet.StepToken | spreadsheet/src/domain/Spreadsheet.java:291-313 | one token's branch equals `ShuntingYard.Step` |
| Engine.PushOperator | spreadsheet/src/domain/Spreadsheet.java:297-303 | pops exactly the yielding operators (`PopOperators`) and pushes the new one |
| Engine.CloseParen | spreadsheet/src/domain/Spreadsheet.java:305-310 | pops to the innermost `(` and drops it, or `MismatchedParens` (`PopToOpen`) |
| Engine.DrainStack | spreadsheet/src/domain/Spreadsheet.java:315-319 | moves the remaining operators to the output, or `MismatchedParens` for a `(` (`Drain`) |
| Engine.Spreadsheet.EvalRpn | spreadsheet/src/domain/Spreadsheet.java:327-349 | the stack loop equals `EvalPostfix`, popping `b` then `a` |
| Engine.Spreadsheet.ResolveRef | spreadsheet/src/domain/Spreadsheet.java:373-380 | equals `Sheets.ResolveRef` on the mirrored grid |
| Sheets.EmptySheet | spreadsheet/src/domain/Spreadsheet.java:26-34 | every formula and value of the new grid is empty |
| Sheets.SetValue | spreadsheet/src/domain/Cell.java:33-35 | one cell's value replaced; every formula and every other value unchanged |
| Sheets.SetFormula | spreadsheet/src/domain/Cell.java:23-27 | one cell's formula replaced; every value and every other formula unchanged |
| Sheets.OperandText | spreadsheet/src/domain/Spreadsheet.java:375-379 | blank reads as "0"; `#...` is `ReferenceError`; other non-long text is `NotAnInteger`; a long passes unchanged |
| Sheets.ReferenceReadsValue | spreadsheet/src/domain/Spreadsheet.java:373-380 | a reference to a cell showing a computed number reads that number back |
| Sheets.DecimalUntrimmed | spreadsheet/src/domain/Spreadsheet.java:375 | a rendered long survives `trim` and does not start with `#` |
| JavaText.Trim | spreadsheet/src/domain/Spreadsheet.java:119 | the result has no trimmable character at either end, and already trimmed text is unchanged |
| JavaText.TrimIsInfix | spreadsheet/src/domain/Spreadsheet.java:119 | trim keeps an infix and removes only characters up to U+0020 |
| JavaText.ToUpper | spreadsheet/src/domain/Spreadsheet.java:285 | upper-casing maps each character on its own and keeps the length |
| JavaText.ToUpperIdempotent | spreadsheet/src/domain/Spreadsheet.java:285 | upper-casing twice is upper-casing once |
| JavaText.StripSpaces | spreadsheet/src/domain/Spreadsheet.java:285 | `replaceAll("\\s+", "")` leaves no white space and keeps every other character; one character is dropped exactly when it is white space |
| JavaText.StripSpacesAppend | spreadsheet/src/domain/Spreadsheet.java:285 | stripping distributes over concatenation, so the result is the non-space characters in their order and number |
| JavaText.StripSpacesOfSpaceless | spreadsheet/src/domain/Spreadsheet.java:285 | text without white space is unchanged |
| Numbers.Wrap | spreadsheet/src/domain/Spreadsheet.java:334-336 | `long` wrap-around: the result is a long congruent to the input modulo 2^64 |
| Numbers.WrapAdd | spreadsheet/src/domain/Spreadsheet.java:231 | wrapping an intermediate sum does not change the final wrapped sum |
| Numbers.TruncDiv | spreadsheet/src/domain/Spreadsheet.java:339 | Java's `/`: the remainder has the dividend's sign and is smaller than the divisor |
| Numbers.Clamp | spreadsheet/src/domain/Spreadsheet.java:341 | the `(long)` cast saturates at `Long.MIN_VALUE` and `Long.MAX_VALUE` |
| Numbers.ParseLongStrict | spreadsheet/src/domain/Spreadsheet.java:382-385 | succeeds exactly on `[-]?[0-9]+` whose value is a long, with that value; otherwise `NotAnInteger` |
| Numbers.ZeroLiteral | spreadsheet/src/domain/Spreadsheet.java:376 | the "0" a blank reference reads as parses to 0 |
| Numbers.Digits | spreadsheet/src/domain/Spreadsheet.java:277 | decimal digits without a leading zero |
| Numbers.DigitsValueOfDigits | spreadsheet/src/domain/Spreadsheet.java:277 | the digits of n have the value n |
| Numbers.DecimalRoundTrip | spreadsheet/src/domain/Spreadsheet.java:277 | `String.valueOf` of a long is canonical and parseLongStrict reads it back |
| Addresses.ColStringToIndex | spreadsheet/src/domain/Spreadsheet.java:157-162 | only one letter A-Z is a column, its offset from `A` |
| Addresses.ParseAddress | spreadsheet/src/domain/Spreadsheet.java:135-153 | a result is inside the grid; any failure is `InvalidAddress` |
| Addresses.ParseAddressAccepts | spreadsheet/src/domain/Spreadsheet.java:135-153 | accepted exactly for one letter and a 1-based row number inside the grid and the `int` range, giving (row - 1, letter offset) |
| Addresses.LetterRun | spreadsheet/src/domain/Spreadsheet.java:140 | the leading upper-case letters, as `[A-Z]+` matches them |
| Addresses.DigitRun | spreadsheet/src/domain/Spreadsheet.java:140 | the leading digits, as `[0-9]+` matches them |
| Addresses.RefShapeSplit | spreadsheet/src/domain/Spreadsheet.java:140 | `[A-Z]+[0-9]+` holds exactly when a letter run is followed by digits to the end |
| Addresses.AnchoredBody | spreadsheet/src/domain/Spreadsheet.java:140 | `$` matches at the end or before one final line terminator |
| Addresses.SingleLetterShape | spreadsheet/src/domain/Spreadsheet.java:140-158 | an address shape with one letter is a single-letter address |
| Addresses.Render | spreadsheet/src/domain/Spreadsheet.java:135-153 | the address text of a (row, col) has the address shape |
| Addresses.RenderShape | spreadsheet/src/domain/Spreadsheet.java:135-153 | a rendered address is the column letter and the 1-based row digits |
| Addresses.ParseRender | spreadsheet/src/domain/Spreadsheet.java:135-153 | parseAddress of a rendered address gives the coordinates back |
| Addresses.RefShapeNormalized | spreadsheet/src/domain/Spreadsheet.java:137 | trim and upper-casing leave an address-shaped text alone |
| Addresses.IndexOfColon | spreadsheet/src/domain/Spreadsheet.java:167 | the first `:` of the text, if any |
| Addresses.ParseRange | spreadsheet/src/domain/Spreadsheet.java:165-177 | the result is an ordered block inside the grid; failures are `InvalidRange` or `InvalidAddress` |
| Addresses.ParseCorners | spreadsheet/src/domain/Spreadsheet.java:167-176 | the anchored pattern, then both corners parsed and ordered |
| Addresses.BoundingBox | spreadsheet/src/domain/Spreadsheet.java:170-176 | the corners are the minimum and maximum row and column of the two addresses; the first corner's fault wins |
| Addresses.ParseRangeAccepts | spreadsheet/src/domain/Spreadsheet.java:165-177 | parseRange succeeds exactly when the normalised text is `ref:ref` with both corners valid; text without that shape is `InvalidRange`; otherwise the result is the bounding box of the two corners |
| Addresses.ParseRangeCorners | spreadsheet/src/domain/Spreadsheet.java:165-177 | parseRange of `a:b` is the bounding box of the two parsed corners |
| Addresses.ParseRangeSwap | spreadsheet/src/domain/Spreadsheet.java:173-176 | the order in which the corners are written does not matter |
| Addresses.BoundingBoxSwap | spreadsheet/src/domain/Spreadsheet.java:174-175 | the bounding box is symmetric in its corners |
| Lexer.OperatorOf | spreadsheet/src/domain/Spreadsheet.java:20 | exactly the characters of `[+\-*/^]` are operators |
| Lexer.Tokenize | spreadsheet/src/domain/Spreadsheet.java:19-21 | every token carries a lexeme of its own group of the token pattern |
| Lexer.TokenizeSpell | spreadsheet/src/domain/Spreadsheet.java:286-291 | tokenising the spelling of separable tokens gives them back |
| Lexer.TokenizeHead | spreadsheet/src/domain/Spreadsheet.java:291 | the first token of a spelling is found first, the scan continues after it |
| Lexer.TokenizeRef | spreadsheet/src/domain/Spreadsheet.java:293 | an address is one reference token |
| Lexer.TokenizeNum | spreadsheet/src/domain/Spreadsheet.java:295 | a digit run is one number token |
| Lexer.TokenizeOp | spreadsheet/src/domain/Spreadsheet.java:297 | an operator character is one operator token |
| Lexer.TokenizeSingle | spreadsheet/src/domain/Spreadsheet.java:304-311 | `(`, `)`, `:` and `,` are one token each |
| Lexer.SpellStart | spreadsheet/src/domain/Spreadsheet.java:291 | a spelling is empty exactly when there are no tokens, and starts with the first lexeme |
| Lexer.RefPrefix | spreadsheet/src/domain/Spreadsheet.java:20 | the letter run and the digits after it form a reference |
| Lexer.OperationTokens | spreadsheet/src/domain/Spreadsheet.java:19-21 | `x op y` spells as the three lexemes and nothing in it fuses |
| Lexer.TwoOperationTokens | spreadsheet/src/domain/Spreadsheet.java:19-21 | `a o1 b o2 c` spells as its five lexemes and nothing fuses |
| Lexer.NumberOpReferenceEnds | spreadsheet/src/domain/Spreadsheet.java:19-21 | a number, an operator and a reference written together start and end with a digit |
| ShuntingYard.Precedence | spreadsheet/src/domain/Spreadsheet.java:356-363 | `^` binds tightest (3), `+` and `-` loosest (1) |
| ShuntingYard.YieldingRun | spreadsheet/src/domain/Spreadsheet.java:298-300 | the popped operators are exactly the run of yielding operators on top of the stack |
| ShuntingYard.LastOpen | spreadsheet/src/domain/Spreadsheet.java:307 | the innermost `(`, with only operators above it |
| ShuntingYard.Step | spreadsheet/src/domain/Spreadsheet.java:291-313 | `:` and `,` are `UnexpectedToken`; numbers, operators and `(` never fail |
| ShuntingYard.PopYielding | spreadsheet/src/domain/Spreadsheet.java:298-301 | popping one yielding operator leaves the rest of the inner loop's work |
| ShuntingYard.PopStops | spreadsheet/src/domain/Spreadsheet.java:298-300 | the inner loop stops at an empty stack or a top that does not yield |
| ShuntingYard.CloseOne | spreadsheet/src/domain/Spreadsheet.java:307 | popping an operator above the innermost `(` leaves the rest of the work |
| ShuntingYard.CloseAtOpen | spreadsheet/src/domain/Spreadsheet.java:308-309 | a `(` on top is removed |
| ShuntingYard.DrainOne | spreadsheet/src/domain/Spreadsheet.java:315-318 | the final loop moves the top operator to the output |
| ShuntingYard.DrainOpen | spreadsheet/src/domain/Spreadsheet.java:317 | the final loop fails at an unclosed `(` |
| ShuntingYard.RunAt | spreadsheet/src/domain/Spreadsheet.java:291-314 | the main loop at position i is one step and then the rest |
| ShuntingYard.UnwindTop | spreadsheet/src/domain/Spreadsheet.java:301 | the top operator of a segment is output first |
| ShuntingYard.UnwindAbove | spreadsheet/src/domain/Spreadsheet.java:301 | unwinding the stack above a position starts with its top |
| PostfixEval.Apply | spreadsheet/src/domain/Spreadsheet.java:333-342 | the result is a long; it fails exactly for `/` by zero, with `DivideByZero` |
| PostfixEval.EvalFrom | spreadsheet/src/domain/Spreadsheet.java:329-346 | a stack of longs stays a stack of longs |
| PostfixEval.EvalPostfix | spreadsheet/src/domain/Spreadsheet.java:327-349 | a result is a long |
| PostfixEval.OperandPush | spreadsheet/src/domain/Spreadsheet.java:344 | an operand pushes its parsed value |
| PostfixEval.OperatorUnderflow | spreadsheet/src/domain/Spreadsheet.java:331 | an operator with fewer than two values is `MalformedExpression` |
| PostfixEval.EvalAt | spreadsheet/src/domain/Spreadsheet.java:329-345 | one pass of the loop: pop `b`, then `a`, push `a op b`; or push an operand |
| PostfixEval.EvalFromDepth | spreadsheet/src/domain/Spreadsheet.java:329-346 | operands push one value each; operators take two and push one |
| PostfixEval.EvalPostfixBalanced | spreadsheet/src/domain/Spreadsheet.java:347-348 | a postfix list that evaluates has one operand more than operators |
| ConversionLaws.ConvertBalanced | spreadsheet/src/domain/Spreadsheet.java:304-319 | an arithmetic formula converts exactly when its parentheses balance; otherwise `MismatchedParens` |
| ConversionLaws.ConvertUnbalancedFails | spreadsheet/src/domain/Spreadsheet.java:304-319 | any formula whose parentheses do not balance fails to convert, whatever its references read |
| ConversionLaws.RunParensAny | spreadsheet/src/domain/Spreadsheet.java:291-314 | for any tokens, a main loop that succeeds never closed an unopened `(` and moves the open count by the net depth |
| ConversionLaws.StepParensAny | spreadsheet/src/domain/Spreadsheet.java:297-310 | a successful step of any token moves the open count by its depth, which stays non-negative |
| ConversionLaws.RunParens | spreadsheet/src/domain/Spreadsheet.java:291-314 | the main loop succeeds exactly when no prefix closes an unopened `(`, and counts the open ones |
| ConversionLaws.StepParens | spreadsheet/src/domain/Spreadsheet.java:297-310 | one token changes the open-parenthesis count by its depth |
| ConversionLaws.PopOperatorsKeepsParens | spreadsheet/src/domain/Spreadsheet.java:298-302 | the inner loop pops no `(` |
| ConversionLaws.PendingAbove | spreadsheet/src/domain/Spreadsheet.java:298-302 | dropping operators from the top keeps the stack's `(`s |
| ConversionLaws.PopToOpenParens | spreadsheet/src/domain/Spreadsheet.java:307-309 | `)` succeeds exactly when a `(` is open, and removes one |
| ConversionLaws.RunFailsOnParens | spreadsheet/src/domain/Spreadsheet.java:304-310 | between arithmetic tokens only a parenthesis can fail |
| ConversionLaws.RunRejectsSeparator | spreadsheet/src/domain/Spreadsheet.java:311-312 | a `:` or `,` anywhere fails the main loop |
| ConversionLaws.ConvertRejectsSeparator | spreadsheet/src/domain/Spreadsheet.java:311-312 | a `:` or `,` anywhere fails the conversion |
| ConversionLaws.ConvertContents | spreadsheet/src/domain/Spreadsheet.java:284-321 | the conversion keeps the operands in order and outputs every operator exactly once |
| ConversionLaws.RunContents | spreadsheet/src/domain/Spreadsheet.java:291-314 | the main loop outputs the operands in order and holds every operator seen |
| ConversionLaws.StepContents | spreadsheet/src/domain/Spreadsheet.java:293-310 | one token adds its operand to the output and its operator to what is held |
| ConversionLaws.StepOperator | spreadsheet/src/domain/Spreadsheet.java:297-303 | an operator token moves operators without losing or adding any |
| ConversionLaws.StepClose | spreadsheet/src/domain/Spreadsheet.java:307-309 | `)` moves operators without losing or adding any |
| ConversionLaws.UnwindContents | spreadsheet/src/domain/Spreadsheet.java:301 | popping outputs no operand and exactly the waiting operators |
| Expressions.Value | spreadsheet/src/domain/Spreadsheet.java:333-342 | the value of an operator tree is a long |
| Expressions.ConvertParenthesized | spreadsheet/src/domain/Spreadsheet.java:284-321 | a fully parenthesized expression converts to its postfix form |
| Expressions.RunParenthesized | spreadsheet/src/domain/Spreadsheet.java:291-314 | its tokens append the postfix form and leave the stack as it was |
| Expressions.EvalPostfixOf | spreadsheet/src/domain/Spreadsheet.java:327-346 | evaluating a tree's postfix form pushes the tree's value or stops at its fault |
| Expressions.EvaluateParenthesized | spreadsheet/src/domain/Spreadsheet.java:274-278 | converting and evaluating a fully parenthesized expression computes its value |
| Expressions.Associate | spreadsheet/src/domain/Spreadsheet.java:298-300 | of two operators, the first applies first exactly when it yields to the second |
| Expressions.ConvertTwoOperators | spreadsheet/src/domain/Spreadsheet.java:297-319 | `a o1 b o2 c` is grouped by precedence and associativity |
| Expressions.EvaluateTwoOperators | spreadsheet/src/domain/Spreadsheet.java:274-278 | and evaluates to the value of that grouping |
| Expressions.ConvertOneOperator | spreadsheet/src/domain/Spreadsheet.java:284-321 | `x op y` converts to the two operands and the operator |
| Expressions.EvaluateOneOperator | spreadsheet/src/domain/Spreadsheet.java:274-278 | `x op y` evaluates to the operation on its operands |
| Expressions.StepStandsFor | spreadsheet/src/domain/Spreadsheet.java:293-296 | a number or a resolvable reference outputs its operand text |
| Aggregates.InsideOf | spreadsheet/src/domain/Spreadsheet.java:221-225 | succeeds exactly when the formula ends with `)`; otherwise `InvalidFunctionSyntax` |
| Aggregates.InsideOfCall | spreadsheet/src/domain/Spreadsheet.java:221-225 | the argument of `name(arg)` is `arg` trimmed |
| Aggregates.RowValues | spreadsheet/src/domain/Spreadsheet.java:263-267 | at most one long per cell; a failure is `NotAnInteger` |
| Aggregates.BoxValues | spreadsheet/src/domain/Spreadsheet.java:262-268 | the numbers are longs; a failure is `NotAnInteger` |
| Aggregates.ValuesOf | spreadsheet/src/domain/Spreadsheet.java:259-270 | the numbers are longs; faults come from parseRange or parseLongStrict |
| Aggregates.RowValuesTexts | spreadsheet/src/domain/Spreadsheet.java:263-267 | a row yields its non-blank trimmed texts parsed, failing exactly when one is not a long |
| Aggregates.BoxValuesTexts | spreadsheet/src/domain/Spreadsheet.java:262-268 | the same for whole rows, row by row |
| Aggregates.RangeValuesTexts | spreadsheet/src/domain/Spreadsheet.java:262-268 | the same for the block from (r1, c1) to (r2, c2) |
| Aggregates.ValuesOfBlock | spreadsheet/src/domain/Spreadsheet.java:259-270 | valuesOf reads the texts of the block parseRange gives |
| Aggregates.CollectsAppend | spreadsheet/src/domain/Spreadsheet.java:262-268 | collecting two stretches collects their concatenation |
| Aggregates.CollectsOne | spreadsheet/src/domain/Spreadsheet.java:266 | one text collects to its parsed value |
| Aggregates.ParsedAppend | spreadsheet/src/domain/Spreadsheet.java:266 | parsed values of two stretches concatenate |
| Aggregates.AllParseAppend | spreadsheet/src/domain/Spreadsheet.java:266 | all texts parse exactly when both stretches do |
| Aggregates.RowStep | spreadsheet/src/domain/Spreadsheet.java:264-266 | a blank cell is skipped, a long is appended |
| Aggregates.BoxStep | spreadsheet/src/domain/Spreadsheet.java:262-268 | a row's numbers are appended to those above |
| Aggregates.RowFaultAt | spreadsheet/src/domain/Spreadsheet.java:266 | the first text that is not a long fails the row |
| Aggregates.BoxFaultAt | spreadsheet/src/domain/Spreadsheet.java:262-268 | a failing row fails its block |
| Aggregates.RowFaultNext | spreadsheet/src/domain/Spreadsheet.java:266 | a failed row stays failed one more column on |
| Aggregates.BoxFaultNext | spreadsheet/src/domain/Spreadsheet.java:262-268 | a failed block stays failed one more row on |
| Aggregates.RowFaultStays | spreadsheet/src/domain/Spreadsheet.java:263-267 | after a fault the rest of the row is not read |
| Aggregates.BoxFaultStays | spreadsheet/src/domain/Spreadsheet.java:262-268 | after a fault the rows below are not read |
| Aggregates.RowFails | spreadsheet/src/domain/Spreadsheet.java:263-267 | a text that is not a long fails the row from there on |
| Aggregates.BlockFails | spreadsheet/src/domain/Spreadsheet.java:262-268 | a failing row fails every block containing it, with `NotAnInteger` |
| Aggregates.CellFault | spreadsheet/src/domain/Spreadsheet.java:262-268 | one text that is not a long, reached before any other fault, is the whole block's fault |
| Aggregates.RunningSum | spreadsheet/src/domain/Spreadsheet.java:230-232 | the running `long` sum is a long |
| Aggregates.RunningSumWraps | spreadsheet/src/domain/Spreadsheet.java:230-232 | wrapping at every step is wrapping the exact sum once |
| Aggregates.SumStep | spreadsheet/src/domain/Spreadsheet.java:231 | one more value adds to the running sum, wrapped |
| Aggregates.Least | spreadsheet/src/domain/Spreadsheet.java:235-241 | a member of the values and at most each of them |
| Aggregates.LeastStep | spreadsheet/src/domain/Spreadsheet.java:238 | `Math.min` against the least so far |
| Aggregates.Greatest | spreadsheet/src/domain/Spreadsheet.java:243-249 | a member of the values and at least each of them |
| Aggregates.GreatestStep | spreadsheet/src/domain/Spreadsheet.java:246 | `Math.max` against the greatest so far |
| Aggregates.RoundedQuotient | spreadsheet/src/domain/Spreadsheet.java:255 | `Math.round(s / n)`: the nearest integer, halves rounded up |
| Aggregates.RoundedQuotientBounds | spreadsheet/src/domain/Spreadsheet.java:255 | the rounded mean lies between 0 and the sum, so it is a long |
| Aggregates.Reduce | spreadsheet/src/domain/Spreadsheet.java:229-256 | only `SUMME` accepts no numbers; each result is the wrapped sum, least, greatest or rounded mean as specified, `EmptyRange` otherwise |
| RangeCalls.CallArgument | spreadsheet/src/domain/Spreadsheet.java:221-225 | the argument of `NAME(a:b)` is `a:b` |
| RangeCalls.CallChars | spreadsheet/src/domain/Spreadsheet.java:188-193 | a call over `a:b` is unchanged by trim and upper-casing |
| RangeCalls.CallNoLower | spreadsheet/src/domain/Spreadsheet.java:193 | a call built from upper-case parts has no lower-case letter |
| RangeCalls.OrderedCorners | spreadsheet/src/domain/Spreadsheet.java:165-177 | a range whose first corner is above and left of the second spans exactly them |
| RangeCalls.ColumnRange | spreadsheet/src/domain/Spreadsheet.java:165-177 | the range from a cell down its column |
| RangeCalls.PairTexts | spreadsheet/src/domain/Spreadsheet.java:262-268 | a two-cell column block reads its two texts |
| RangeCalls.CollectsPair | spreadsheet/src/domain/Spreadsheet.java:266 | two parseable texts collect to their two values |
| RangeCalls.ColumnTexts | spreadsheet/src/domain/Spreadsheet.java:259-270 | a two-cell column range collects its two texts |
| RangeCalls.ColumnPair | spreadsheet/src/domain/Spreadsheet.java:259-270 | two cells showing longs x and y give the numbers [x, y] |
| Formulas.RangeFunctionOf | spreadsheet/src/domain/Spreadsheet.java:193-202 | a chosen function's `NAME(` opens the formula; none is chosen exactly when no prefix matches |
| Formulas.NoPrefix | spreadsheet/src/domain/Spreadsheet.java:193-205 | failing the four tests means no range function prefix |
| Formulas.PrefixParen | spreadsheet/src/domain/Spreadsheet.java:193-204 | the matched `(` is in the formula itself at the name's length |
| Formulas.ExpressionValue | spreadsheet/src/domain/Spreadsheet.java:274-278 | an expression's value is a long |
| Formulas.RangeValue | spreadsheet/src/domain/Spreadsheet.java:193-204 | a long, or one of the range faults |
| Formulas.Evaluate | spreadsheet/src/domain/Spreadsheet.java:191-210 | an empty formula gives the empty text; a non-empty one a canonical long |
| Formulas.Dispatch | spreadsheet/src/domain/Spreadsheet.java:193-210 | the chosen branch: range function, expression, or empty |
| Formulas.ExpressionPath | spreadsheet/src/domain/Spreadsheet.java:205-207 | a formula with no range-function prefix takes the expression path |
| Formulas.LeadsNoPrefix | spreadsheet/src/domain/Spreadsheet.java:193-205 | a formula whose first letter is neither S nor M has no range-function prefix |
| Formulas.RangePath | spreadsheet/src/domain/Spreadsheet.java:193-204 | a recognised prefix dispatches to that function |
| Formulas.DispatchRange | spreadsheet/src/domain/Spreadsheet.java:193-204 | the range path's result is the function's value in decimal, or its fault |
| Formulas.DispatchShows | spreadsheet/src/domain/Spreadsheet.java:193-215 | a range call shows its value or `#ERR` |
| Formulas.DivisionOnlyInExpressions | spreadsheet/src/domain/Spreadsheet.java:211-212 | `#DIV/0!` comes only from the expression path |
| Formulas.CellValue | spreadsheet/src/domain/Spreadsheet.java:187-217 | the stored value is empty exactly for a blank formula, else a long or one of the two codes |
| Formulas.TrimmedCell | spreadsheet/src/domain/Spreadsheet.java:188 | an already trimmed formula shows what it evaluates to |
| Formulas.DisplayCodes | spreadsheet/src/domain/Spreadsheet.java:211-215 | `#DIV/0!` shows exactly a zero divisor, `#ERR` exactly every other fault |
| Formulas.PutFormula | spreadsheet/src/domain/Spreadsheet.java:125-127 | the body is stored and its value computed against the grid holding it |
| Formulas.PutAt | spreadsheet/src/domain/Spreadsheet.java:118-129 | only the target changes; a literal becomes the value and keeps the old formula; a formula goes through PutFormula |
| Formulas.Locate | spreadsheet/src/domain/Spreadsheet.java:135-153 | a located cell is inside the grid; otherwise `InvalidAddress` |
| Formulas.Get | spreadsheet/src/domain/Spreadsheet.java:39-42 | fails exactly when the name does not locate a cell; otherwise that cell's value |
| Formulas.Put | spreadsheet/src/domain/Spreadsheet.java:48-51 | fails exactly when the name does not locate a cell; otherwise PutAt there |
| Formulas.GetAfterPutLiteral | spreadsheet/src/domain/Spreadsheet.java:39-51 | after putting a literal, get returns it trimmed |
| Formulas.GetAfterPutElsewhere | spreadsheet/src/domain/Spreadsheet.java:39-51 | a put leaves every other cell's value |
| Formulas.PutValueShape | spreadsheet/src/domain/Spreadsheet.java:118-129 | the put cell holds the trimmed literal, or one of the formula outcomes |
| Formulas.LiteralKeepsStaleFormula | spreadsheet/src/domain/Spreadsheet.java:120-123 | a literal over a formula cell keeps the stale formula |
| Formulas.ExpressionOfSpelling | spreadsheet/src/domain/Spreadsheet.java:274-286 | the expression of a token spelling is the conversion and evaluation of those tokens |
| Formulas.ExpressionOfParenthesized | spreadsheet/src/domain/Spreadsheet.java:274-278 | a fully parenthesized numeric formula evaluates to its tree's value |
| Formulas.ParenthesizedTokens | spreadsheet/src/domain/Spreadsheet.java:19-21 | the tokens of a parenthesized tree are scanned back |
| Scenarios.ExpressionCell | spreadsheet/src/domain/Spreadsheet.java:205-215 | an expression cell shows the value or its fault's code |
| Scenarios.OneOperatorValue | spreadsheet/src/domain/Spreadsheet.java:274-278 | `a op y` has the value of the operation on the two texts |
| Scenarios.ReferenceOperandCell | spreadsheet/src/domain/Spreadsheet.java:373-380 | a cell computing `a op name` uses the text the reference reads |
| Scenarios.TwoOperatorExpression | spreadsheet/src/domain/Spreadsheet.java:297-303 | `a o1 b o2 c` evaluates as its precedence grouping |
| Scenarios.ThreeHalves | spreadsheet/src/spreadsheet/app/Main.java:15 | `=3/2` shows 1 |
| Scenarios.SevenByZero | spreadsheet/src/domain/Spreadsheet.java:338 | `=7/0` shows `#DIV/0!` |
| Scenarios.TimesBeforePlus | spreadsheet/src/domain/Spreadsheet.java:356-363 | `=2+3*4` shows 14 |
| Scenarios.MinusGroupsLeft | spreadsheet/src/domain/Spreadsheet.java:365-367 | `=8-3-2` shows 3 |
| Scenarios.CaretGroupsRight | spreadsheet/src/domain/Spreadsheet.java:365-367 | `2^3^2` applies the power to 3 and 2 first |
| Scenarios.UnclosedParenValue | spreadsheet/src/domain/Spreadsheet.java:317 | `(1/0` fails on its unclosed parenthesis |
| Scenarios.ParenFaultBeforeDivision | spreadsheet/src/domain/Spreadsheet.java:211-215 | `=(1/0` shows `#ERR`: nothing is evaluated |
| Scenarios.UnaryMinus | spreadsheet/src/domain/Spreadsheet.java:331 | `=-5` shows `#ERR`: numbers are unsigned |
| Scenarios.PercentSkipped | spreadsheet/src/domain/Spreadsheet.java:291 | a character that starts no token is skipped |
| Scenarios.SkippedCharacter | spreadsheet/src/domain/Spreadsheet.java:347 | `=5%3` shows `#ERR`: two values are left |
| Scenarios.PutOnePlusSelf | spreadsheet/src/domain/Spreadsheet.java:118-129 | putting `=1+A1` into a one-cell grid stores the formula and one more than A1's old value |
| Scenarios.SelfReferenceNotIdempotent | spreadsheet/src/domain/Spreadsheet.java:118-129 | putting `=1+A1` into a blank A1 shows 1, and putting it again shows 2: a self-referring put is not idempotent |
| Demo.CallDispatch | spreadsheet/src/domain/Spreadsheet.java:193-204 | `NAME(...` dispatches to that function |
| Demo.RangeCell | spreadsheet/src/domain/Spreadsheet.java:193-215 | a range-function cell shows its value or `#ERR` |
| Demo.RangeCallCell | spreadsheet/src/domain/Spreadsheet.java:193-215 | `NAME(a:b)` shows the function of the numbers of `a:b` |
| Demo.DemoRange | spreadsheet/src/spreadsheet/app/Main.java:10-11 | the range `A2:A3` holds 1 and 123 |
| Demo.SummeCell | spreadsheet/src/spreadsheet/app/Main.java:17 | C1 `=SUMME(A2:A3)` shows 124 |
| Demo.MaxCell | spreadsheet/src/spreadsheet/app/Main.java:18 | C2 `=MAX(A2:A3)` shows 123 |
| Demo.MittelwertCell | spreadsheet/src/spreadsheet/app/Main.java:19 | C3 `=MITTELWERT(A2:A3)` shows 62 |
| Demo.ProductCell | spreadsheet/src/spreadsheet/app/Main.java:14 | J5 `=7*6` shows 42 |

Behaviours of the code the model keeps:

- A literal put keeps the cell's old formula, because `setFormula("")` does nothing.
- The constructor does not check its sizes.
- The tokeniser silently skips characters that start no token, such as `%`.
- A formula that refers to its own cell reads the cell's previous value, so putting `=1+A1` into A1 twice shows 1 and then 2.

## Left out

- CSV import and export (`readCsv`, `saveCsv`, `splitCsv`) and the console rendering (`toString` of the grid and of `Cell`): file I/O and formatting.
- `Math.pow` is a parameter `power` of the grid: it is host floating-point arithmetic. The `(long)` cast of its result is modelled as saturation, and a NaN result is not modelled.
- `Engine.Mean`, `Aggregates.Reduce`: `Math.round((double) s / n)` is modelled as the exact quotient rounded to the nearest integer. In Java the quotient is itself rounded to a `double` before `Math.round` sees it, and for sums above 2^53 the sum is rounded too, so the results can differ once the magnitude of the sum reaches about 2^52. For example, the mean of 2251799813685248, 2251799813685248 and 2251799813685249 (sum 3·2^51 + 1) is 2251799813685249 in Java, because the `double` quotient is 2251799813685248.5, but 2251799813685248 in the model.
- `JavaText.ToUpper`, `JavaText.Trim`: only ASCII letters are upper-cased. Case mappings that change the length, such as `ß`, are not modelled.
- `JavaText.ToUpper`: `toUpperCase()` follows the JVM's default locale. The model assumes a locale whose upper-casing of ASCII letters is the plain `a`–`z` to `A`–`Z` mapping. Under a Turkish or Azerbaijani locale `i` becomes `İ` (U+0130), so in Java a lower-case `=min(a1:a2)` misses the `MIN(` test and shows `#ERR`, and an address such as `i3` is rejected, whereas the model accepts both.
- The regular-expression engine: the token pattern and the address patterns are modelled by their languages, not by `java.util.regex`.
- `Engine.Spreadsheet.constructor`: negative sizes, for which `new Cell[rows][cols]` throws `NegativeArraySizeException`, are excluded by the `nat` parameters.
- Other exceptions: once the grid exists, none besides `ArithmeticException` and `IllegalArgumentException` can arise from the modelled code, since the address checks keep indices inside the grid.
- `Demo`: of the demo driver's cells, B9 `=41+A2` is covered only by the general `Scenarios.ReferenceOperandCell`, and C5 `=SUMME(C1:C3)` is not proved.
