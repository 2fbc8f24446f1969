# Meeting-minutes drafting core, in Dafny

This project models the text-processing core of `script.js`, a browser tool
that drafts Chinese meeting minutes for three kinds of project review:
the opportunity review (商机评估会), the bid review (投标评估会) and the
project hand-over (项目交底会). Form fields arrive as a record
(`map<string, string>`) with the delivery table as a sequence of rows, so no
DOM is read. From these the model builds:

- **Value helpers** (`values.dfy`, `text.dfy`): JavaScript `trim`,
  `parseFloat` with a default (`_safeFloat`), the terminal full stop
  (`_ensurePeriod`), `YYYY-MM-DD` dates rendered as `Y年M月D日` (`_formatDate`),
  and the two-decimal renderings `toFixed(2)` and the percent rendering.
- **The iron triangle** (`roles.dfy`): a dedicated backtracking scanner for
  the global pattern `label：name(department)`, and the `exec` loop that fills
  the roles dictionary, where the last match for a label wins. It also
  builds the four-role sentence with `【待定】` for a missing role, and
  finds the lead department from the *first* match of the non-global
  `项目经理…(dept)` pattern.
- **Shared figures** (`common.dfy`, `_calculateCommonLogic`):
  - amounts in 万 (units of ten thousand yuan);
  - the procurement ratio, guarded against a zero budget;
  - the assisting-department sentence and the numbered delivery breakdown;
  - the table gathering that drops rows without a department.
- **The three generators** (`minutes.dfy`):
  - placeholders for missing fields;
  - three-way 是/否/unset questions;
  - bidding-method clauses;
  - one trailing `。` stripped from the construction content;
  - the header brackets;
  - the numbering loop, which skips blank points without using up a number.
- **The paste extractor** (`paste.dfy`, `parseVerticalData`): a
  line-indexed scanner with a first-match-wins dispatch chain, `isKey`,
  `isMoneyLine`, `getValue`, the 8-row budget and 3-row external-budget
  look-aheads, and multi-line captures that jump the index past the rows they
  consume.
- **The smart-paste action** (`smartpaste.dfy`, `handleSmartPaste`):
  - business-code truncation;
  - the first `[\d,]+(\.\d+)?` amount, without commas;
  - the first signed number of each margin;
  - the external-budget rule that sets the purchase flag to 是 or 否;
  - the iron-triangle text;
  - `setSelectValue` (the first exact value or text) and `setSelectFuzzy`
    (the first option whose text contains, or is contained in, the searched
    text).

  The page is a `class` whose state (element values and selected indexes) the
  setters change. Every fill method is proved equal to a specification
  function that lists the setter calls in order.
- **Attendees and e-mail recipients** (`attendees.dfy`, `emails.dfy`):
  - the attendee selection rules of `updateAttendeesList`: the finance rule at
    a budget of 50, the required seats per meeting type, the optional flags,
    the leader hint, and first-occurrence de-duplication;
  - the two-pass recipient list of `updateEmailList`, whose `seenEmails` set
    is shared by the leader pass and the manager pass.

Amounts are `real`s. Methods model the loops the source has: the `exec` loop,
the table loop, the numbering loop, the scanner loop with its look-aheads and
captures, the attendee loops and the two e-mail passes. Each method is
proved equal to a function, and the properties are proved about that
function.

Two behaviours of the code a reader might not expect:

- **The business code.** `getValue` keeps only the piece between the first
  and the second colon. So `商机编号：ABC-123 合同编号：XYZ` is captured as
  `ABC-123 合同编号`, not `ABC-123 合同编号：XYZ`. The cut in the smart-paste
  action then gives `ABC-123` either way (`Paste.GetValueStopsAtSecondColon`,
  `SmartPaste.CleanCodeExample`).
- **Empty role names and departments.** Both are trimmed after matching, so
  a role can be recorded with an empty name or department, for example
  `项目经理：A( )`.

## Model

| member | source | states |
|---|---|---|
| Text.Trim | script.js:270 | the trimmed text neither starts nor ends with white space |
| Text.TrimIsSlice | script.js:270 | trimming keeps one contiguous slice and removes only white space on both sides |
| Text.TrimIdempotent | script.js:270 | trimming twice is trimming once |
| Text.TrimEmptyIffBlank | script.js:270-271 | the trimmed text is empty exactly when the text is blank |
| Values.ParseFloat | script.js:265 | a number is read exactly when the text, after leading white space, starts like a decimal number |
| Values.ParseFloatNat | script.js:265 | the decimal digits of a natural number parse back to that number |
| Values.SafeFloat | script.js:264-267 | the parsed number, or the default when nothing parses |
| Values.SafeFloatDefault | script.js:264-267 | a text that does not start like a number reads as the default |
| Values.EnsurePeriod | script.js:269-273 | empty exactly for blank text; otherwise the trimmed text ending in 。 or `.`, and unchanged when it already ends so |
| Values.EnsurePeriodIdempotent | script.js:269-273 | making sure of the full stop twice changes nothing more |
| Values.EnsurePeriodFixed | script.js:272 | a trimmed text ending in a full stop is returned as it is |
| Values.ParseIsoDate | script.js:277-278 | only valid calendar dates are recognised |
| Values.IsoDateRoundTrip | script.js:277-278 | the `YYYY-MM-DD` rendering of a valid date parses back to it |
| Values.FormatDate | script.js:275-283 | a missing date reads `undefined`; a text that is not a date is echoed |
| Values.FormatIsoDate | script.js:279 | a `YYYY-MM-DD` date is written `Y年M月D日` |
| Values.HundredthsNearest | script.js:370 | rounding to hundredths is within half a hundredth |
| Values.Fixed2Whole | script.js:370 | a whole amount is written with `.00` |
| Values.Percent2Whole | script.js:484 | a whole percentage below 1000 is written with `.00%` and no separator |
| Roles.SkipSpace | script.js:291 | `\s*` is greedy: it stops only at the end of the text or at a character that is not white space |
| Roles.SkipSpaceSkipsSpace | script.js:291 | `\s*` consumes nothing but white space |
| Roles.CloseFromFirst | script.js:291 | the department ends at the first closing parenthesis after it starts; none is skipped |
| Roles.Exec | script.js:291-294 | a match lies in the text and starts at or after `lastIndex` |
| Roles.ExecShape | script.js:291 | every match found is a label, white space, a colon and a tail of the pattern's shape, with the tail the search picks after that colon (which tail that is: Roles.AfterColonComplete) |
| Roles.AfterColonComplete | script.js:291 | whenever a tail of the pattern's shape follows a colon, the search after that colon finds one, and it is the backtracking choice: the name starts as late as any tail's, and among tails starting there it ends first (so in `项目经理：张三(研发部)李四(市场部)` the name is `张三`) |
| Roles.TailFromGreatest | script.js:291 | giving back the greedy `\s*` one character at a time stops at the latest name start for which the lazy name and department fit |
| Roles.LabelFromFinds | script.js:291 | the lazy label is tried at every end in turn: if the rest of the pattern fits after some end, the label search stops there or earlier |
| Roles.ExecReaches | script.js:291-294 | when a match starts at `s`, `exec` from any `lastIndex` at or before `s` finds a match no later, and exactly that one when it starts at `s` |
| Roles.ExecComplete | script.js:291-294 | `exec` misses no match: when the pattern matches at or after `lastIndex`, a match is found starting no later, and at the same start its label is no longer |
| Roles.ExecShortestLabel | script.js:291 | `(.+?)` is lazy: no match at the same start has a shorter label than the one found |
| Roles.ExecStartsAtLastIndex | script.js:291-294 | with `(.+?)` and the `s` flag, a match always starts exactly at `lastIndex` |
| Roles.MatchesTile | script.js:294 | the successive matches tile the text, each starting where the previous one ended |
| Roles.MatchesFound | script.js:294-296 | every match of the loop has the pattern's shape |
| Roles.Entries | script.js:296 | each match contributes its trimmed label and its trimmed name and department |
| Roles.CollectRoles | script.js:293-297 | the `exec` loop builds exactly the dictionary of all matches |
| Roles.RolesOfKeyMatched | script.js:296 | every key of the dictionary is the label of some match |
| Roles.RolesOfMatchedKey | script.js:296 | every matched label is a key |
| Roles.RolesOfLastWins | script.js:294-297 | a repeated label keeps its last match |
| Roles.FormatProjectRoles | script.js:287-306 | empty input gives `【铁三角信息未填写】。`; otherwise the four-role sentence of the trimmed input's dictionary |
| Roles.RolePhraseUnmatched | script.js:298-306 | a role without any match renders as `【待定】(【待定】)` |
| Roles.RolePhraseMatched | script.js:296-306 | a matched role renders with the name and department of its last match |
| Roles.ManagerAt | script.js:346 | a `项目经理` match starts with the label itself |
| Roles.ManagerFrom | script.js:346-348 | the non-global match is the leftmost one |
| Roles.ManagerFromLeftmost | script.js:348 | the first position with a match is the one found |
| Roles.LeadDepartmentUnknown | script.js:343-351 | without a `项目经理…(dept)` match the lead department is `【未知事业部】` |
| Roles.LeadDepartmentFirst | script.js:346-351 | the lead department is the trimmed department of the first match |
| Roles.ManagerRoleGivesLead | script.js:346-351 | a role line labelled `项目经理` always gives a lead-department match |
| Roles.ManagerEntryGivesLead | script.js:343-353 | when the summary has a 项目经理 entry, the lead department is found too |
| Common.FilledRows | script.js:317-331 | the gathered table is no longer than the page's table |
| Common.FilledRowsExactly | script.js:322 | exactly the rows with a department are kept |
| Common.GatherRows | script.js:317-332 | the table loop keeps the rows with a department, in order |
| Common.FieldNumber | script.js:337-338 | a missing or unparseable amount reads as 0 |
| Common.Wan | script.js:339-340 | the amount in 万 times 10000 is the amount in yuan |
| Common.Ratio | script.js:341 | the ratio times the budget is the procurement amount, and exactly 0 for a zero budget |
| Common.AssistDepartments | script.js:361-363 | no more assisting departments than rows |
| Common.AssistDepartmentsSound | script.js:361-363 | every listed department is the trimmed department of a non-lead row |
| Common.AssistDepartmentsComplete | script.js:361-363 | every non-lead row with a department is listed |
| Common.AssistSummaryPresence | script.js:364 | the assist sentence is empty exactly when no row assists, and otherwise ends with `协助交付。` |
| Common.ManagerTitle | script.js:372 | the title is `项目经理` exactly for the lead row |
| Common.Numbered | script.js:366-376 | entry `i` is numbered `n + i` followed by `）` and its text |
| Common.DeliverySummaryShape | script.js:366-376 | the breakdown opens with a line break and entry `1）`, and ends with `。` |
| Common.RowTextShape | script.js:367-374 | an entry opens with its department and ends with the manager clause, or with the budget clause when only the budget is given |
| Common.RowPartShape | script.js:367-374 | the same for a table row, with the budget read by `_safeFloat` |
| Common.CalculateCommon | script.js:336-388 | every figure: amounts in 万, the guarded ratio, lead department, role sentence, and both summaries empty for 单产能 or an empty table |
| Common.DeliveryBreakdownPresence | script.js:357-377 | the breakdown is present exactly for a multi-capacity project with rows |
| Minutes.GetValMeaning | script.js:394 | a filled field reads trimmed, a missing or blank one as its placeholder |
| Minutes.GetValNonBlank | script.js:394 | with a placeholder, a field never reads as blank |
| Minutes.ClientDescriptionShape | script.js:404-407 | the contract customer as a sentence, then a different end customer; a placeholder without one |
| Minutes.AnswerCases | script.js:412-419 | 是 gives the trimmed detail or its placeholder, 否 the fixed sentence, anything else the prompt |
| Minutes.AnswerNonBlank | script.js:412-419 | a three-way answer is never blank |
| Minutes.ProcurementTextCases | script.js:409-410 | the procurement clause follows the same three-way flag |
| Minutes.ProcurementRiskNonBlank | script.js:412-413 | the procurement risk point is never blank |
| Minutes.StripPeriod | script.js:499-501 | stripping never lengthens the text |
| Minutes.StripPeriodRestores | script.js:499-505 | stripping one 。 and writing one back never doubles the stop |
| Minutes.Kept | script.js:434-435 | no more points are written than given |
| Minutes.KeptExactly | script.js:434-439 | exactly the non-blank points are written |
| Minutes.KeptAllFilled | script.js:434-439 | when no point is blank, all are written |
| Minutes.KeptSnoc | script.js:434-439 | a further point is written after the earlier ones, unless it is blank |
| Minutes.Finished | script.js:436 | one finished text per point |
| Minutes.FinishedAt | script.js:436 | each written point goes through `_ensurePeriod` |
| Minutes.LinesFront | script.js:433-439 | the first written point gets number `n`, and the rest follow from `n + 1` |
| Minutes.LinesSnoc | script.js:433-439 | a new line takes the number after the last one |
| Minutes.NumberedSnoc | script.js:433-439 | a blank point uses up no number; a filled one adds the next numbered line |
| Minutes.FinishedKeptSnoc | script.js:434-436 | the finished points grow by one exactly for a non-blank point |
| Minutes.AppendPoints | script.js:433-439 | the numbering loop appends the non-blank points, numbered 1, 2, … without gaps |
| Minutes.FinishedPointsEndWithPeriod | script.js:436 | every written point ends with a full stop |
| Minutes.DocumentShape | script.js:430-441 | a document opens with its header and ends with its closing |
| Minutes.KeptCount | script.js:431-439 | with k filled points before an optional last one, k or k + 1 points are numbered |
| Minutes.Method | script.js:474 | a method is present exactly when the field is filled |
| Minutes.DeliveryRequirement | script.js:507 | the delivery point is never blank |
| Minutes.OpportunityOverview | script.js:426 | key point 1 of the opportunity review is never blank |
| Minutes.OpportunityOrganisation | script.js:427 | key point 2 is never blank |
| Minutes.OpportunityBudget | script.js:428 | key point 3 is never blank |
| Minutes.RiskStatement | script.js:401 | the project-risk point is never blank |
| Minutes.GenerateOpportunityMinutes | script.js:391-442 | the generator returns the opportunity document of the form |
| Minutes.OpportunityPointCount | script.js:431-439 | eight numbered points, nine when the other-risk field is filled |
| Minutes.OpportunityDocumentShape | script.js:430-441 | opens with the name and the code in full-width brackets, ends with the fixed conclusion |
| Minutes.BidMethodTextShape | script.js:473-479 | opens with the method; a tender names the opening date, an answered method the response date, and another method is echoed |
| Minutes.BidMethodDescriptionCases | script.js:473-479 | no method gives `【请选择投标方式】`; an unrecognised one is echoed verbatim |
| Minutes.BidRiskAssessment | script.js:481-482 | the tender-risk point is never blank |
| Minutes.BidRiskFollowsMethod | script.js:472-482 | the tender-risk field only for the open-tender family; otherwise a no-tender-risk sentence, or the prompt without a method |
| Minutes.GenerateBiddingMinutes | script.js:445-522 | the generator returns the bid document of the form |
| Minutes.BidPointCount | script.js:511-518 | ten numbered risk points, eleven with the other-risk field |
| Minutes.BidDocumentShape | script.js:509-521 | opens with the name and the code in ASCII brackets, ends with the conclusion section |
| Minutes.KickoffMethodTextShape | script.js:550-574 | opens with the method; every recognised family names the signing date; another method is echoed |
| Minutes.KickoffMethodDescriptionCases | script.js:550-574 | no method gives `【请选择投标方式】`; an unrecognised one is echoed verbatim |
| Minutes.GenerateKickoffMinutes | script.js:525-606 | the generator returns the hand-over document of the form |
| Minutes.KickoffPointCount | script.js:595-602 | six numbered risk points, seven with the other-risk field |
| Minutes.KickoffDocumentShape | script.js:593-605 | opens with the name and the code in full-width brackets, ends with sections 四 and 五 |
| Paste.NonBlankTrimmed | script.js:1256 | the kept lines are trimmed and none is empty |
| Paste.PasteLines | script.js:1256 | every line the scanner sees starts with a non-space character |
| Paste.StartsWithAnyIff | script.js:1270 | `keys.some(startsWith)` holds exactly when one of the keys is a prefix |
| Paste.MoneyLineIff | script.js:1273-1280 | a money line has a digit, no `结构` or `含税`, fewer than two `-` and fewer than two `/` |
| Paste.DigitSurvivesRemoval | script.js:1276 | removing the digit-free `合同金额` keeps a digit, so that test never decides |
| Paste.ColonFrom | script.js:1286 | finds the first colon of either width |
| Paste.ColonSegment | script.js:1286-1287 | a second piece exists exactly when the line has a colon |
| Paste.ColonSegmentIsSecondPiece | script.js:1286-1287 | the segment lies between the first colon and the next colon or the end |
| Paste.FirstColon | script.js:1286 | the colon found is the first one |
| Paste.InlineValue | script.js:1334-1335 | at most one non-empty inline value |
| Paste.GetValueCases | script.js:1285-1290 | the trimmed inline value when not empty, else the next line, else empty |
| Paste.GetValueStopsAtSecondColon | script.js:1285-1296 | `商机编号：ABC-123 合同编号：XYZ` captures `ABC-123 合同编号` |
| Paste.BudgetRow | script.js:1305-1316 | a row it settles on is a money line within the next 8 rows, with no stopping key row and no earlier money line before it |
| Paste.BudgetRowNone | script.js:1305-1316 | when it settles on no row, every money line in the 8-row window comes after a stopping key row |
| Paste.BudgetValue | script.js:1299-1318 | a stored budget is always a money line: the inline piece when it is one, else the look-ahead's row |
| Paste.ExtRow | script.js:1365-1374 | the first of the next ≤ 3 rows with a digit and without `结构` |
| Paste.CaptureEnd | script.js:1337-1343 | the capture ends before the first key row that is not a numbered item (or a `项目预算` row for 建设内容) |
| Paste.PercentEnd | script.js:1322 | a percentage match ends after its start |
| Paste.PercentEndSound | script.js:1322 | what is found is a signed number followed by `%` |
| Paste.PercentFrom | script.js:1322 | the first position where a percentage starts |
| Paste.PercentToken | script.js:1322-1323 | a percentage token occurs in the line |
| Paste.PercentTokenIsLeftmost | script.js:1322-1323 | the token is a signed number followed by `%`, and no signed number followed by `%` starts earlier in the line |
| Paste.PercentTokenFinds | script.js:1322-1323 | a line holding a signed number followed by `%` always yields a token |
| Paste.PercentEndComplete | script.js:1322 | every signed number followed by `%` is matched with its whole extent |
| Paste.Utf16Length | script.js:1379 | JavaScript's `length` is between one and two units per character, and equals the number of characters exactly when none lies above U+FFFF |
| Paste.Utf16LengthAppend | script.js:1379 | the length of a text is the sum of the lengths of its parts |
| Paste.Utf16LengthChar | script.js:1379 | a character counts two units exactly when it lies above U+FFFF, else one |
| Paste.Step | script.js:1282-1390 | one turn moves to the next line, except that a capture moves to the first stopping row after it, so captured rows are never dispatched |
| Paste.StepAs | script.js:1282-1390 | the same, for each kind of line: the capture end for captures, the next line otherwise |
| Paste.Classify | script.js:1292-1390 | the budget, external amount and level are only assigned by the lines that check them |
| Paste.StepFrame | script.js:1292-1390 | a line assigns at most the field its kind names and leaves every other field alone |
| Paste.StepWellFormed | script.js:1299-1380 | a line keeps the stored values well formed |
| Paste.StepAsWellFormed | script.js:1299-1380 | the same for each kind of line |
| Paste.ScanOrigin | script.js:1282-1391 | a field is present only if some line's kind assigns it |
| Paste.VerticalDataOrigin | script.js:1253-1392 | a field is absent unless a triggering line was seen |
| Paste.ScanWellFormed | script.js:1282-1391 | the scan keeps the stored values well formed |
| Paste.VerticalDataWellFormed | script.js:1253-1392 | a stored budget is a money line, an external amount has a digit and no `结构`, a level is shorter than 10 |
| Paste.ParseVerticalData | script.js:1253-1392 | the scanner loop computes the extractor's result |
| Paste.ScanLine | script.js:1283-1390 | the body of the loop performs one turn of the dispatch chain |
| Paste.FindBudgetRow | script.js:1305-1316 | the 8-row budget look-ahead loop |
| Paste.FindExtRow | script.js:1366-1373 | the 3-row external-amount look-ahead loop |
| Paste.CaptureRows | script.js:1333-1345 | a capture takes the inline value and every row up to the stopping row, and the index jumps there |
| SmartPaste.CodeCut | script.js:1144 | the first blank, `合同编号` or `项目类型`, and none before it |
| SmartPaste.CleanCode | script.js:1144 | the cleaned code is a prefix of the capture without white space |
| SmartPaste.CleanCodeLongest | script.js:1144 | it is the longest such prefix |
| SmartPaste.CleanCodeExample | script.js:1144 | `ABC-123 合同编号` is cut to `ABC-123` |
| SmartPaste.AmountRunEnd | script.js:1154 | `[\d,]+` runs to the first other character |
| SmartPaste.AmountStart | script.js:1154 | the first digit or comma |
| SmartPaste.FractionEnd | script.js:1154 | `(\.\d+)?` is greedy: a point followed by a digit is taken with its whole digit run, anything else leaves nothing |
| SmartPaste.AmountMatch | script.js:1154 | a match exists exactly when the text has a digit or comma |
| SmartPaste.AmountMatchLeftmostLongest | script.js:1154 | the match starts at the first digit or comma and takes the maximal run and the greedy fraction |
| SmartPaste.RemoveCommas | script.js:1156 | no comma is left and no character is added |
| SmartPaste.RemoveCommaBetween | script.js:1156 | dropping the thousands separator between two comma-free pieces joins the pieces |
| SmartPaste.AmountText | script.js:1152-1158 | an amount is written exactly when the text has a digit or comma |
| SmartPaste.AmountTextLeftmostLongest | script.js:1154-1156 | the amount written is the leftmost-longest token with its commas removed |
| SmartPaste.AmountTextShape | script.js:1154-1156 | the written amount is digits with at most one point |
| SmartPaste.AmountTextExample | script.js:1154-1156 | `约1,234.50万元` is written `1234.50` |
| SmartPaste.NumberStart | script.js:1194 | the first position where `-?\d+(\.\d+)?` matches |
| SmartPaste.NumberMatch | script.js:1194 | a margin number is found exactly when one occurs |
| SmartPaste.NumberMatchIsNumber | script.js:1194-1197 | the margin written is a signed decimal number occurring in the text, where the leftmost number starts |
| SmartPaste.NumberMatchLeftmostLongest | script.js:1194-1197 | the margin is the leftmost number with its sign, its maximal digit run and its greedy fraction |
| SmartPaste.IronText | script.js:1222 | the text opens with the project-manager line |
| SmartPaste.ExactFrom | script.js:1409-1411 | the first option whose value or text equals the searched text |
| SmartPaste.FuzzyFrom | script.js:1422-1425 | the first option with text that contains, or is contained in, the searched text |
| SmartPaste.FuzzyFindsSameText | script.js:1422-1425 | an option with the searched text itself is found, or an earlier one |
| SmartPaste.Effect | script.js:1395-1431 | a setter fills at most one element, and changes nothing when it returns 0 |
| SmartPaste.Perform | script.js:1137-1229 | the count is at most the number of calls |
| SmartPaste.PerformAppend | script.js:1137-1229 | performing calls in turn is performing them all |
| SmartPaste.SectionTargets | script.js:1139-1229 | each section writes only its own elements |
| SmartPaste.OwnSection | script.js:1165-1229 | the purchase flag is written only by section D, the iron triangle only by section G |
| SmartPaste.ProcurementYes | script.js:1165-1190 | 是 is chosen exactly for an external amount that parses positive |
| SmartPaste.ProcurementForYes | script.js:1165-1190 | the same, per external amount |
| SmartPaste.ProcurementNo | script.js:1165-1190 | 否 is chosen, uncounted, exactly for an amount that does not parse positive |
| SmartPaste.ProcurementForNo | script.js:1165-1190 | the same, per external amount |
| SmartPaste.IronWritten | script.js:1220-1229 | the iron-triangle element is written exactly when a role name was found |
| SmartPaste.Page.SetInputValue | script.js:1395-1404 | writes a truthy value into an existing element and returns 1, else returns 0 |
| SmartPaste.Page.SetSelectValue | script.js:1405-1417 | selects the first exact option and returns 1, else changes nothing |
| SmartPaste.Page.SetSelectFuzzy | script.js:1418-1431 | selects the first loosely matching option and returns 1, else changes nothing |
| SmartPaste.Page.FillBasics | script.js:1139-1149 | section A: name, cleaned code, client and content |
| SmartPaste.Page.FillCode | script.js:1143-1146 | the cut business code, when one was found |
| SmartPaste.Page.FillBudget | script.js:1151-1159 | section B: the budget amount without commas |
| SmartPaste.Page.FillLevels | script.js:1161-1163 | section C: level and capacity drop-downs |
| SmartPaste.Page.FillProcurement | script.js:1165-1190 | section D: the external-budget rule, else the extracted flag |
| SmartPaste.Page.FillPositive | script.js:1170-1183 | a positive amount: 是, the amount, and the situation when there is one |
| SmartPaste.Page.FillMargins | script.js:1192-1203 | section E: the gross margin in two fields, the net margin in one |
| SmartPaste.Page.FillOthers | script.js:1205-1218 | section F: method, entity, business type and period |
| SmartPaste.Page.FillIron | script.js:1220-1229 | section G: the iron-triangle text |
| SmartPaste.Page.FillAll | script.js:1137-1229 | all seven sections perform the action's calls in order |
| SmartPaste.Page.HandleSmartPaste | script.js:1121-1229 | a blank text changes nothing; otherwise the extracted values are written and the filled elements counted |
| Attendees.RoleString | script.js:746-749 | the role alone unless both name and department are known, and it always opens with the role |
| Attendees.ArchitectureText | script.js:761-774 | the architecture line opens with its fixed label |
| Attendees.FinanceFor | script.js:784-792 | finance attends exactly from a budget of 50; 刘椰韵 exactly without procurement at level B or C, 戴亮 otherwise |
| Attendees.Required | script.js:795-800 | the required seats of a meeting type are never optional seats |
| Attendees.EntryTag | script.js:751-792 | each seat's line carries its own tag |
| Attendees.TagsDiffer | script.js:751-792 | no line carries two seats' tags |
| Attendees.DedupMembers | script.js:828 | de-duplication keeps exactly the lines listed |
| Attendees.DedupDistinct | script.js:828 | no line appears twice |
| Attendees.DedupPrefix | script.js:828 | first occurrences keep their order |
| Attendees.DedupDistinctFixed | script.js:828 | a list without repeats is left as it is |
| Attendees.RequiredMember | script.js:810 | the required lines are the present entries of the required seats |
| Attendees.FlaggedMember | script.js:811-813 | an optional line is added exactly when its flag is 是 |
| Attendees.TaggedSource | script.js:809-824 | a tagged line comes from its seat: a required seat, or a flagged optional one |
| Attendees.SeatIn | script.js:809-813 | a seat's line is listed exactly when the seat is required or flagged |
| Attendees.HintIn | script.js:821-824 | the leader hint is listed exactly when its condition holds |
| Attendees.FinanceLiu | script.js:784-800 | 刘椰韵 attends exactly for a finance meeting with a budget from 50, no procurement and level B or C |
| Attendees.FinanceDai | script.js:784-800 | 戴亮 attends exactly for a finance meeting with a budget from 50 otherwise |
| Attendees.OptionalAttendee | script.js:802-813 | an optional seat attends exactly when its flag is 是 |
| Attendees.ManagerAttendee | script.js:751-755 | each iron-triangle seat attends exactly for a known meeting type |
| Attendees.ManagerListed | script.js:795-810 | the same for any dictionary of roles |
| Attendees.HintAttendee | script.js:821-824 | the hint is listed exactly for an industry A-level bid meeting with procurement or cooperation |
| Attendees.AttendeesDistinct | script.js:828 | the output lists no line twice |
| Attendees.UpdateAttendeesList | script.js:732-828 | the output is the de-duplicated candidate lines joined by line breaks |
| Attendees.DedupLoop | script.js:828 | the `Set` pass keeps first occurrences in order |
| Attendees.FlagLoop | script.js:811-813 | the loop over the optional seats gives, in seat order, the line of each seat flagged 是 |
| Emails.DeptOf | script.js:959-965 | a department exactly for a checked box or a chosen drop-down |
| Emails.Chosen | script.js:968-969 | a row yields recipients exactly when its department is non-empty and configured, and they are that department's |
| Emails.Rendered | script.js:972 | one `name <email>` text per contact |
| Emails.VisitTidy | script.js:971-974 | adding one contact keeps the list free of repeated and pre-seen addresses |
| Emails.PassTidy | script.js:967-986 | a pass keeps the list free of repeats |
| Emails.PassComplete | script.js:967-986 | every chosen address of a pass ends up seen |
| Emails.PassSound | script.js:967-986 | every listed contact belongs to a chosen row |
| Emails.NoRepeatedAddress | script.js:953-986 | no address appears twice across both lists |
| Emails.LeaderListed | script.js:967-976 | every chosen leader's address is listed |
| Emails.ManagerListed | script.js:977-986 | every chosen manager's address is listed, as a manager or already as a leader |
| Emails.ListedChosen | script.js:967-986 | every listed leader and manager comes from a chosen row |
| Emails.UpdateEmailList | script.js:952-992 | the two passes and the join give the recipient text |

## Left out

- DOM construction, visibility toggles, modals, help panels and the PM table display: user interface only.
- SmartPaste.Page.HandleSmartPaste: the `change` and `input` events the setters dispatch (script.js:1395-1428) run the page's listeners, and the model does not run them. Its `State()` is the page before those listeners act.
- SmartPaste.Page.FillProcurement: when the procurement drop-down ends up not `是`, the listener at script.js:174-185 empties `procurementAmount`, `procurementRisk` and `coreCapability`. The model keeps their earlier values.
- SmartPaste.Page.FillOthers: the relay guarded by `isSyncing` (script.js:224-260) copies a written field into its partner: `TB_biddingMethod` and `JD_biddingMethod`, `JD_businessType` and `TB_businessType`, `JD_deliveryPeriod` and `TB_deliveryPeriod`, and in FillMargins `SJ_grossMargin` and `TB_grossMargin`. Both fields of each pair are also written directly. The page can still end differently from the model when the second write finds no matching option, or when the two drop-downs list different options. The page then keeps the copied value, and the model keeps the earlier one.
- Loading `data.json` and the help page, saving to the backend, file export and import: network and file I/O.
- Clipboard reads, `prompt`, `alert`, `setTimeout` feedback, `highlightInput` and console logging: the action starts from the pasted text.
- The `disabled` switches and the risk-row display in section D: presentation. The `try`/`catch` around the action: the model has no exceptions.
- `gatherFormData`'s reads of the inputs: the record and the rows are parameters.
- The attendee form's `getV` reads are the fields of a `Form`.
- `repopulateEmailDepartments` and `addEmailDeptRow`: they build the page's rows. The rows and the address book are parameters.
- The four lines of `_formatProjectRoles` that fill in a missing department (script.js:301-304): they never change anything. When a role is in the dictionary, `getInfo` returns that very entry, and its department is the one the lines would copy.
- Amounts are exact `real`s, not IEEE doubles.
- Values.ParseFloat: reads decimal numbers with an optional sign, point and exponent. `Infinity` and the other spellings JavaScript accepts are not recognised.
- Values.FormatDate: recognises only `YYYY-MM-DD` with a day that exists in its month. Other texts that `new Date` accepts are echoed. An out-of-range day such as `2021-02-31` is echoed too, while `new Date` rolls it over into the next month (`2021年3月3日`). The time-zone shift of a date-only text is not modelled.
- Values.Fixed2: rounds half upward on exact reals. `toFixed` rounds the binary double, so ties can differ.
- Values.Percent2: `toLocaleString(undefined, …)` follows the browser's default locale. The model assumes a Chinese locale, with `,` grouping and `.` decimals. Only its whole-number case is proved; the grouping of large percentages is modelled but not proved.
- AmountMatch: its own contract states when a match exists and that it occurs in the text. Which token it is (leftmost, longest) is stated by SmartPaste.AmountMatchLeftmostLongest.
- AmountText: its own contract states when an amount is written. Which token is written is stated by SmartPaste.AmountTextLeftmostLongest.
- NumberMatchIsNumber: states the number's shape and its leftmost start. The greedy extent is stated by SmartPaste.NumberMatchLeftmostLongest.
- The `OT_risk` field has no placeholder. `getVal` then yields `undefined`, which the numbering loop skips like the empty string. The model reads it as the empty text.
- The `<select>` and input element kinds are assumed to match their ids: the layout says which elements exist.
