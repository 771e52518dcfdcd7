# Keyword-driven UI test harnesses, modelled in Dafny

The repository holds three keyword-driven UI test harnesses that share one idea. An Excel workbook describes the tests:

- a master sheet lists test cases, each with an Execute flag and a comma-separated flow of screens;
- each screen sheet lists keywords (`CLICK`, `ENTER_TEXT`, `VERIFY_TITLE`, …), with a locator and a value for each;
- an executor runs every selected case in order, screen by screen and step by step, against a browser;
- the executor records one result per case and summarises them in a report.

The three variants are:

- **Playwright** (`framework/`): a pairwise keyword/value row reader with a per-screen cache, a keyword engine that never raises, and an executor that runs the first test case of each screen.
- **Selenium** (`selenium_framework/`): a driver wrapper with a locator prefix classifier, a keyword map that never raises, a reader that flattens pairs of rows into steps, an executor with pass and fail counters, a report, and a singleton logger.
- **Selenium + Behave** (`selenium_behave_framework/`): a keyword engine with aliases, arity dispatch and stored variables, which re-raises handler faults; a lazily loaded workbook reader; environment configurations; page-object helpers; and an executor that classifies each case as Passed, Failed or Error.

The project models each variant separately. The variants share datatypes for what they have in common:

- strings and Python's string methods: `Text`;
- worksheets as rows of optional cells: `Sheets`;
- step records: `Steps`;
- the step-by-step run of a flow that stops at the first failure: `StepRuns`.

## How the model is built

- **The browser is a parameter.** Every WebDriver or Playwright call is a field of a record of functions, or a function passed in. Each call answers with a value or with the error it would raise.
  - Selenium variant: the driver is a `Browser` record and the keyword handlers see a `Page`. A test case gets a `Session` with how launching each browser ends (started, failed with the driver left set, or failed without a driver) and the page of each step.
  - Behave variant: the keyword handlers see a `Page`, and side effects go through `perform`. A test case gets a `Session` with the driver-setup fault, if any, and the page at each step.
  - Playwright variant: the handlers see a `Page`. A test case gets a `Session` with the start outcome, the keyword engine's answers and the screenshot call.

  The model decides only what is done with those answers.
- **Workbooks are values.** A file is an `Option<Workbook>`, with `None` for a file that cannot be opened. A sheet is a sequence of rows of optional cells. Configuration values are parameters: the `Settings` record of each executor holds the browser name and the screenshot switches.
- **Pure code becomes functions.** Locator parsing, keyword dispatch, handler predicates, the environment table lookups and the report summaries are functions, with lemmas about them.
- **Stateful code becomes classes.** The readers, executors, report generators, the Behave keyword engine and environment registry, the TestResult record and the logger singleton mutate their fields in the source, so they are classes. Their methods hold the source's loops, with invariants. Each method is proved against a specification function:
  - the sheet-reading functions of `Sheets` and of each reader module, for the reader loops;
  - `StepRuns.RunFrom` and the flow functions of each executor, for the screen and step loops;
  - case and batch functions, for the executors' loops over test cases.

  Lemmas then state the source's promises about those functions, for example:
  - order and completeness of the selected cases;
  - the pair numbering of the Playwright reader;
  - that the Behave executor stops at the first raising step and nothing after it runs;
  - exactly one report entry and one counter update per case.
- **Time goes in as numbers.** Timestamps are arguments, so durations are differences of integers.
- **Screenshot names are computed; their paths are answers.** The Playwright and Selenium models build each screenshot name from the test case id, as the source does:
  - Playwright executor: `<id>_<screen>_FAILED` in the loop, then `<id>_FAILED` or `<id>_PASSED` (`PlaywrightExecutor.ShotNames`);
  - Selenium executor: `<id>_ERROR` (`SeleniumExecutor.ErrorShot`), `<id>_PASS` and `<id>_FAIL`.

  The path saved under a name is the answer of the browser parameter. The Behave executor's names embed a timestamp, so its model keeps only what the screenshot call returns or raises.

## Model

| member | source | states |
|---|---|---|
| `Sheets.MaxRow` | selenium_framework/framework/core/excel_reader.py:76 | `max_row` is at least 1 and covers every written row |
| `Sheets.MaxColumn` | selenium_behave_framework/utils/excel_reader.py:184-187 | `max_column` is at least 1 |
| `Sheets.MaxColumnBound` | selenium_behave_framework/utils/excel_reader.py:177 | `max_column` covers every written cell of every row |
| `Sheets.Cells` | selenium_framework/framework/core/excel_reader.py:130-132 | the cells of a row between two columns, one per column |
| `Sheets.RowCells` | framework/core/excel_reader.py:51 | `sheet[1]` gives one cell per column up to `max_column` |
| `Sheets.Present` | selenium_framework/framework/core/excel_reader.py:279 | `[c.value for c in row if c.value]` keeps only non-empty values, never more than the cells |
| `Sheets.NonNone` | selenium_behave_framework/utils/excel_reader.py:66 | `[c.value for c in row if c.value is not None]` never has more values than the cells |
| `Sheets.PresentComplete` | selenium_framework/framework/core/excel_reader.py:279 | every truthy cell is kept |
| `Sheets.PresentSound` | selenium_framework/framework/core/excel_reader.py:279 | every kept value comes from a truthy cell |
| `Sheets.PresentAppend` | selenium_framework/framework/core/excel_reader.py:279 | the filter keeps the cells' order |
| `Sheets.CellText` | selenium_framework/framework/core/excel_reader.py:131-132 | a written cell gives its text and an empty one "" |
| `Sheets.Lookup` | selenium_behave_framework/utils/excel_reader.py:47-49 | a sheet is found iff its name is one of the workbook's sheet names |
| `StepRuns.RunFrom` | framework/core/test_executor.py:84-119 | a flow run counts every keyword that ran, and a failure points at a real step of a screen at or after the start |
| `StepRuns.Flatten` | framework/core/test_executor.py:84-93 | the steps of all screens in execution order; no screens, no steps |
| `StepRuns.PassedScreenSteps` | framework/core/test_executor.py:93-107 | a run that passes had every later step of the current screen succeed |
| `StepRuns.ScreenCompletes` | framework/core/test_executor.py:93-119 | when the rest of a screen succeeds, the run moves on to the next screen with all of that screen's keywords counted |
| `StepRuns.FailsAt` | framework/core/test_executor.py:102-119 | the first failing step stops the flow with its keyword's message, and no later keyword runs |
| `StepRuns.FlattenFrom` | framework/core/test_executor.py:84-93 | the flattened steps from a screen on are its steps followed by those of the later screens |
| `StepRuns.FlowPassIff` | framework/core/test_executor.py:84-119 | a flow passes iff every step of every screen succeeds, numbered across the whole flow |
| `StepRuns.WholeFlowPassIff` | selenium_framework/framework/core/test_executor.py:97-214 | the whole flow passes iff each of its steps succeeds |
| `StepRuns.FirstFailureFrom` | framework/core/test_executor.py:100-119 | the n-th step failing first means n+1 keywords ran and its message is the failure's |
| `StepRuns.FirstFailure` | selenium_framework/framework/core/test_executor.py:97-214 | the same from the start of the flow |
| `BehaveEnvironments.WithDefaults` | selenium_behave_framework/config/environments.py:10-17 | a configuration built from a name and a base URL has the empty API URL, user name and password and a 30-second timeout |
| `BehaveEnvironments.Get` | selenium_behave_framework/config/environments.py:60-64 | an entry is found exactly when the lower-cased name is registered, and it is the entry under that name |
| `BehaveEnvironments.Added` | selenium_behave_framework/config/environments.py:65-69 | after adding, the lower-cased name maps to the new configuration and every other key keeps its entry |
| `BehaveEnvironments.ListEnvironments` | selenium_behave_framework/config/environments.py:70-74 | the listed names are exactly the registered keys, each once |
| `BehaveEnvironments.GetDefault` | selenium_behave_framework/config/environments.py:75-77 | the default is what `get` returns for `prod` in any casing |
| `BehaveEnvironments.InitialRegistry` | selenium_behave_framework/config/environments.py:20-59 | the predefined registry lists dev, staging, prod and local in that order and its default is the prod configuration |
| `BehaveEnvironments.AddThenGet` | selenium_behave_framework/config/environments.py:60-69 | after `add`, `get` in any casing of that name returns the new entry, and every other name gets what it got before |
| `BehaveEnvironments.AddKeeps` | selenium_behave_framework/config/environments.py:65-74 | `add` keeps the registry well formed and keeps `prod`; a new name is listed last, and a known name keeps the listing unchanged |
| `BehaveEnvironments.Environments.constructor` | selenium_behave_framework/config/environments.py:20-59 | the class starts with the predefined registry |
| `BehaveEnvironments.Environments.Add` | selenium_behave_framework/config/environments.py:65-69 | the registry becomes the old one with the entry added |
| `BehavePage.GetLocator` | selenium_behave_framework/pages/base_page.py:664-690 | the value is kept; the type is looked up lower-cased, and an unknown type means XPath |
| `BehavePage.LocatorAliases` | selenium_behave_framework/pages/base_page.py:673-690 | the short and the long spelling of a strategy, in any casing, give the same locator |
| `BehavePage.UnknownTypeIsXPath` | selenium_behave_framework/pages/base_page.py:688-690 | a type outside the table gives an XPath locator with the value unchanged |
| `BehavePage.VerifyText` | selenium_behave_framework/pages/base_page.py:608-628 | it holds iff the text equals the expected one in exact mode, and iff the text contains it otherwise |
| `BehavePage.VerifyTitle` | selenium_behave_framework/pages/base_page.py:630-632 | it holds iff the title equals the expected one |
| `BehavePage.VerifyUrl` | selenium_behave_framework/pages/base_page.py:634-641 | it holds iff the URL contains the expected one in `contains` mode, and iff they are equal otherwise |
| `BehavePage.ExactImpliesContains` | selenium_behave_framework/pages/base_page.py:608-641 | an exact match is also a containment match, and the converse fails for `"ab"` and `"a"` |
| `BehavePage.IsElementSelected` | selenium_behave_framework/pages/base_page.py:161-169 | a found element answers its selected state; a missing element or a timeout answers False; any other error propagates |
| `BehavePage.IsElementEnabled` | selenium_behave_framework/pages/base_page.py:153-159 | a found element answers its enabled state; a missing element or a timeout answers False; any other error propagates |
| `BehavePage.CheckClicks` | selenium_behave_framework/pages/base_page.py:332-343 | the box is clicked iff it reads as not selected, and the step fails iff the lookup fails |
| `BehavePage.UncheckClicks` | selenium_behave_framework/pages/base_page.py:345-356 | the box is clicked iff it reads as selected, and the step fails iff the lookup fails |
| `BehavePage.SelectRadioClicks` | selenium_behave_framework/pages/base_page.py:358-369 | a radio button is clicked under the same condition as a checkbox being checked |
| `BehavePage.GuardedActionsSettle` | selenium_behave_framework/pages/base_page.py:332-369 | after checking, a box is selected and a second check does not click; likewise for unchecking; a selected radio button is never clicked |
| `BehavePage.CheckUncheckComplement` | selenium_behave_framework/pages/base_page.py:332-356 | when the lookup does not fail, exactly one of check and uncheck clicks |
| `BehaveExcel.Headers` | selenium_behave_framework/utils/excel_reader.py:66 | the header row keeps only the written cells of row 1, so it is never wider than the sheet |
| `BehaveExcel.RowsUpTo` | selenium_behave_framework/utils/excel_reader.py:69-73 | one dictionary per row from 2 to the last row |
| `BehaveExcel.RowKeys` | selenium_behave_framework/utils/excel_reader.py:70-73 | the keys of a row dictionary are exactly the headers |
| `BehaveExcel.RowLastWins` | selenium_behave_framework/utils/excel_reader.py:71-73 | the k-th header holds the cell of column k+1 unless the same header occurs again further right |
| `BehaveExcel.RowsUpToExactly` | selenium_behave_framework/utils/excel_reader.py:69-73 | the dictionaries built are exactly those of rows 2 to the last row |
| `BehaveExcel.AllDataExactly` | selenium_behave_framework/utils/excel_reader.py:51-78 | a row is returned iff it is one of rows 2 to `max_row` and holds a value, and its keys are the headers |
| `BehaveExcel.HeaderGapShifts` | selenium_behave_framework/utils/excel_reader.py:66-73 | an empty header cell shifts the later headers one column to the left: the value under the gap is read under the next header, and a row whose only value lies in the last column is dropped |
| `BehaveExcel.OrEmpty` | selenium_behave_framework/utils/excel_reader.py:113 | `value or ''` is empty iff the value is falsy |
| `BehaveExcel.Converted` | selenium_behave_framework/utils/excel_reader.py:106-114 | one converted step per row |
| `BehaveExcel.StepFallbacks` | selenium_behave_framework/utils/excel_reader.py:107-114 | a step takes its keyword from Keyword, falling back to Action; its test data from TestData, then Value, then Data; its description is empty iff Description and Comment are both falsy |
| `BehaveExcel.KeywordStepsExactly` | selenium_behave_framework/utils/excel_reader.py:103-117 | a step is returned iff some row converts to it and its keyword is truthy |
| `BehaveExcel.KeywordStepsAppend` | selenium_behave_framework/utils/excel_reader.py:106-117 | reading two blocks of rows gives the steps of the first block followed by those of the second |
| `BehaveExcel.Scenarios` | selenium_behave_framework/utils/excel_reader.py:200-210 | there are never more scenarios than rows |
| `BehaveExcel.SelectedExactly` | selenium_behave_framework/utils/excel_reader.py:203-204 | a row is selected iff its Execute text, lower-cased, is yes, y, true or 1; a missing key reads "no" and an empty cell "none" |
| `BehaveExcel.LeadingSpaceRejected` | selenium_behave_framework/utils/excel_reader.py:203-204 | the Execute text is not trimmed, so leading white space never selects |
| `BehaveExcel.ScenariosExactly` | selenium_behave_framework/utils/excel_reader.py:200-210 | the scenarios are those of the selected rows, in their order |
| `BehaveExcel.FirstMatch` | selenium_behave_framework/utils/excel_reader.py:119-134 | without a row whose TestCaseID or TC_ID matches, it returns the empty dictionary; otherwise the first matching row |
| `BehaveExcel.Column` | selenium_behave_framework/utils/excel_reader.py:151-163 | a column number below 1 is an error; otherwise `max_row` values |
| `BehaveExcel.RowValues` | selenium_behave_framework/utils/excel_reader.py:165-177 | a row number below 1 is an error; otherwise `max_column` values |
| `BehaveExcel.CellValue` | selenium_behave_framework/utils/excel_reader.py:136-149 | an index below 1 is an error, and only such an index |
| `BehaveExcel.ColumnRowAgree` | selenium_behave_framework/utils/excel_reader.py:136-177 | the column, row and cell readers agree on every cell inside the sheet, and a row read returns the written cells of that row |
| `BehaveExcel.LoadIsLazy` | selenium_behave_framework/utils/excel_reader.py:31-37 | a loaded workbook is kept and never read again; without one, loading fails with FileNotFoundError iff the file is missing |
| `BehaveExcel.SheetIn` | selenium_behave_framework/utils/excel_reader.py:44-49 | a load error propagates; otherwise the sheet is found iff its name is in the workbook, and a missing sheet raises ValueError |
| `BehaveExcel.ExcelReader.constructor` | selenium_behave_framework/utils/excel_reader.py:21-29 | without a path, the configured test-data path; no workbook is loaded |
| `BehaveExcel.ExcelReader.LoadWorkbook` | selenium_behave_framework/utils/excel_reader.py:31-37 | the result and the kept workbook follow the lazy load |
| `BehaveExcel.ExcelReader.GetSheetNames` | selenium_behave_framework/utils/excel_reader.py:39-42 | the sheet names of the loaded workbook, or the load error |
| `BehaveExcel.ExcelReader.GetSheet` | selenium_behave_framework/utils/excel_reader.py:44-49 | the sheet lookup after the lazy load |
| `BehaveExcel.ExcelReader.ReadAllData` | selenium_behave_framework/utils/excel_reader.py:51-78 | the rows of the named sheet after the lazy load |
| `BehaveExcel.ExcelReader.ReadTestCases` | selenium_behave_framework/utils/excel_reader.py:80-90 | the same rows that `read_all_data` returns |
| `BehaveExcel.ExcelReader.ReadKeywords` | selenium_behave_framework/utils/excel_reader.py:92-117 | the keyword steps of the named sheet after the lazy load |
| `BehaveExcel.ExcelReader.ReadTestData` | selenium_behave_framework/utils/excel_reader.py:119-134 | the first matching row of the named sheet after the lazy load |
| `BehaveExcel.ExcelReader.ReadCell` | selenium_behave_framework/utils/excel_reader.py:136-149 | a sheet error propagates; otherwise the cell value |
| `BehaveExcel.ExcelReader.ReadColumn` | selenium_behave_framework/utils/excel_reader.py:151-163 | a sheet error propagates; otherwise the column |
| `BehaveExcel.ExcelReader.ReadRow` | selenium_behave_framework/utils/excel_reader.py:165-177 | a sheet error propagates; otherwise the row |
| `BehaveExcel.ExcelReader.GetRowCount` | selenium_behave_framework/utils/excel_reader.py:179-182 | a sheet error propagates; otherwise `max_row` |
| `BehaveExcel.ExcelReader.GetColumnCount` | selenium_behave_framework/utils/excel_reader.py:184-187 | a sheet error propagates; otherwise `max_column` |
| `BehaveExcel.ExcelReader.GetTestScenarios` | selenium_behave_framework/utils/excel_reader.py:189-210 | the selected scenarios of the named sheet after the lazy load |
| `BehaveExcel.ExcelReader.Close` | selenium_behave_framework/utils/excel_reader.py:212-216 | the workbook is dropped, so the next read loads the file again |
| `BehaveExcel.ExcelReader.Enter` | selenium_behave_framework/utils/excel_reader.py:218-221 | entering loads the workbook, so a missing file raises here |
| `BehaveExcel.ExcelReader.Exit` | selenium_behave_framework/utils/excel_reader.py:223-225 | leaving closes the workbook |
| `BehaveExcel.CollectRows` | selenium_behave_framework/utils/excel_reader.py:69-78 | the row loop returns exactly the non-empty rows |
| `BehaveExcel.ReadRowData` | selenium_behave_framework/utils/excel_reader.py:70-73 | the inner loop builds the row dictionary header by header |
| `BehaveExcel.CollectSteps` | selenium_behave_framework/utils/excel_reader.py:105-117 | the loop returns exactly the converted steps that have a keyword |
| `BehaveExcel.CollectScenarios` | selenium_behave_framework/utils/excel_reader.py:201-210 | the loop returns exactly the scenarios of the selected rows |
| `BehaveExcel.FindRow` | selenium_behave_framework/utils/excel_reader.py:130-134 | the loop returns the first matching row, or the empty dictionary |
| `BehaveExcel.AllData` | selenium_behave_framework/utils/excel_reader.py:51-78 | at most one row per sheet row from 2 to `max_row`, so none when `max_row` is below 2 |
| `BehaveExcel.StepOf` | selenium_behave_framework/utils/excel_reader.py:107-114 | a step's keyword is truthy iff the row's Keyword cell or, failing it, its Action cell is truthy |
| `BehaveExcel.KeywordSteps` | selenium_behave_framework/utils/excel_reader.py:103-117 | at most one step per data row |
| `BehaveExcel.Selected` | selenium_behave_framework/utils/excel_reader.py:203-204 | a row that has no Execute key is never selected, because the default reads "no" |
| `BehaveKeywords.Names` | selenium_behave_framework/keywords/keyword_engine.py:692-694 | the names of a table, one per entry, in order |
| `BehaveKeywords.LookupInIffListed` | selenium_behave_framework/keywords/keyword_engine.py:175-176 | a keyword is found iff it is listed |
| `BehaveKeywords.LookupInAppend` | selenium_behave_framework/keywords/keyword_engine.py:44-154 | in a table built from two groups, the first group is searched first |
| `BehaveKeywords.RegistrySize` | selenium_behave_framework/keywords/keyword_engine.py:44-154 | the keyword table has 77 names |
| `BehaveKeywords.Aliases` | selenium_behave_framework/keywords/keyword_engine.py:46-62 | NAVIGATE, OPEN and OPEN_URL share the `navigate` handler, and ENTER, TYPE and INPUT share `enter_text` |
| `BehaveKeywords.Args` | selenium_behave_framework/keywords/keyword_engine.py:183-197 | a locator is passed iff its type and value are both non-empty, and first; the data is passed iff it is non-empty, and last |
| `BehaveKeywords.Stored` | selenium_behave_framework/keywords/keyword_engine.py:598-614 | a store handler writes the variable its data names: the data itself, or for `STORE_ATTRIBUTE` the part after the only comma, the part before naming the attribute |
| `BehaveKeywords.Call` | selenium_behave_framework/keywords/keyword_engine.py:188-197 | only a store handler that succeeds changes the variables, and then only the one name its data names |
| `BehaveKeywords.Executed` | selenium_behave_framework/keywords/keyword_engine.py:156-202 | a keyword not in the table, once upper-cased and stripped, raises "Unknown keyword"; otherwise its handler is called with the arguments above |
| `BehaveKeywords.NormalisedKeyword` | selenium_behave_framework/keywords/keyword_engine.py:172 | case and surrounding blanks of the keyword do not change the outcome |
| `BehaveKeywords.UnknownTouchesNothing` | selenium_behave_framework/keywords/keyword_engine.py:172-176 | an unknown keyword raises "Unknown keyword: " followed by it, whatever the browser, and leaves the variables alone |
| `BehaveKeywords.DriverPassThrough` | selenium_behave_framework/keywords/keyword_engine.py:180-202 | a browser handler's result or error is returned or re-raised with the same message, and the variables do not change |
| `BehaveKeywords.VariablesFrame` | selenium_behave_framework/keywords/keyword_engine.py:598-614 | only store handlers write variables; a store writes one name, taken from the data, and keeps every other |
| `BehaveKeywords.StoreTextThenGet` | selenium_behave_framework/keywords/keyword_engine.py:598-601 | after `STORE_TEXT`, `get_variable` on the name returns the element's text, and every other name is unchanged |
| `BehaveKeywords.VerifyTitleIsContainment` | selenium_behave_framework/keywords/keyword_engine.py:371-376 | `VERIFY_TITLE` returns whether the title contains the expected text |
| `BehaveKeywords.AssertEqualsHalves` | selenium_behave_framework/keywords/keyword_engine.py:660-663 | `ASSERT_EQUALS a,b` passes iff the halves split at the first comma are equal, and otherwise raises an AssertionError naming both |
| `BehaveKeywords.Variable` | selenium_behave_framework/keywords/keyword_engine.py:684-686 | a stored value, or None for a name never set |
| `BehaveKeywords.KeywordEngine.constructor` | selenium_behave_framework/keywords/keyword_engine.py:32-154 | the engine starts with the full keyword table, no variables and the configured explicit wait |
| `BehaveKeywords.KeywordEngine.Execute` | selenium_behave_framework/keywords/keyword_engine.py:156-202 | the result and the new variables are those of `execute` on the old variables |
| `BehaveKeywords.KeywordEngine.GetVariable` | selenium_behave_framework/keywords/keyword_engine.py:684-686 | the stored value or None |
| `BehaveKeywords.KeywordEngine.SetVariable` | selenium_behave_framework/keywords/keyword_engine.py:688-690 | the name maps to the value afterwards and every other name is unchanged |
| `BehaveKeywords.KeywordEngine.ListKeywords` | selenium_behave_framework/keywords/keyword_engine.py:692-694 | the registered names in registration order, and exactly those are found |
| `BehaveKeywords.Message` | selenium_behave_framework/keywords/keyword_engine.py:198-202 | an error raised by the browser is re-raised with the browser's own message |
| `BehaveKeywords.Answer` | selenium_behave_framework/keywords/keyword_engine.py:363-669 | a verify handler that returns gives a bool, a get handler a value, and `assert_equals` and `assert_contains` give None |
| `BehaveKeywords.Binds` | selenium_behave_framework/keywords/keyword_engine.py:190-197 | for one of the engine's own handlers, the given arguments bind iff their number is the handler's parameter count |
| `BehaveKeywords.WellTyped` | selenium_behave_framework/keywords/keyword_engine.py:183-197 | an own handler that takes two arguments and gets them well typed gets a locator tuple, then a text |
| `BehaveKeywords.Stores` | selenium_behave_framework/keywords/keyword_engine.py:598-614 | a store handler is one of the engine's own handlers and takes a locator, then a text |
| `BehaveKeywords.TooManyWording` | selenium_behave_framework/keywords/keyword_engine.py:190-197 | the too-many-arguments TypeError says "from N to M" exactly when the handler has parameters with defaults |
| `BehaveKeywords.TooFewWording` | selenium_behave_framework/keywords/keyword_engine.py:190-197 | when too few arguments are given, the TypeError names the parameters from the first unbound position on, at least one |
| `BehaveKeywords.NavigateText` | selenium_behave_framework/keywords/keyword_engine.py:243 | `navigate()` with no argument raises "KeywordEngine.navigate() missing 1 required positional argument: 'url'" |
| `BehaveKeywords.EnterTextText` | selenium_behave_framework/keywords/keyword_engine.py:271 | `enter_text()` with no argument raises "KeywordEngine.enter_text() missing 2 required positional arguments: 'locator' and 'text'" |
| `BehaveKeywords.RefreshText` | selenium_behave_framework/keywords/keyword_engine.py:248 | `refresh` given data raises "KeywordEngine.refresh() takes 1 positional argument but 2 were given" |
| `BehaveKeywords.PressEnterText` | selenium_behave_framework/keywords/keyword_engine.py:472 | `press_enter` given a locator and data raises "KeywordEngine.press_enter() takes from 1 to 2 positional arguments but 3 were given" |
| `BehaveKeywords.NavigateWithoutUrl` | selenium_behave_framework/keywords/keyword_engine.py:190-202 | a NAVIGATE step with no locator and no data raises the missing-argument TypeError and leaves the variables as they were |
| `BehaveKeywords.EnterWithoutArguments` | selenium_behave_framework/keywords/keyword_engine.py:190-202 | an ENTER_TEXT step with no locator and no data raises the missing-arguments TypeError for both parameters |
| `BehaveKeywords.NullaryWithData` | selenium_behave_framework/keywords/keyword_engine.py:190-202 | a keyword whose handler takes no argument, given only data, raises the too-many-arguments TypeError for one argument |
| `BehaveKeywords.PressEnterWithBoth` | selenium_behave_framework/keywords/keyword_engine.py:190-202 | PRESS_ENTER given a locator and data raises the too-many-arguments TypeError for two arguments |
| `BehaveKeywords.MisappliedAlone` | selenium_behave_framework/keywords/keyword_engine.py:190-197 | the arguments can bind and still be of the wrong kind only when a single argument is passed |
| `BehaveKeywords.TitleGivenLocator` | selenium_behave_framework/keywords/keyword_engine.py:371-376 | VERIFY_TITLE given only a locator raises "'in <string>' requires string as left operand, not tuple" |
| `BehaveKeywords.AssertGivenLocator` | selenium_behave_framework/keywords/keyword_engine.py:660-663 | ASSERT_EQUALS given only a locator raises "'tuple' object has no attribute 'split'" |
| `BehaveKeywords.PresenceGivenText` | selenium_behave_framework/keywords/keyword_engine.py:385-391 | VERIFY_ELEMENT_PRESENT given only data raises what the WebDriver raises when that text is unpacked as a locator |
| `BehaveReport.Count` | selenium_behave_framework/utils/report_generator.py:34-36 | the number of results with a given status is at most the number of results |
| `BehaveReport.Summarise` | selenium_behave_framework/utils/report_generator.py:32-38 | the total is the number of results; the pass rate is passed/total*100, or 0 without results |
| `BehaveReport.CountsPartition` | selenium_behave_framework/utils/report_generator.py:33-36 | the three counts sum to at most the total, and to exactly the total iff every status is Passed, Failed or Error |
| `BehaveReport.Percentage` | selenium_behave_framework/utils/report_generator.py:37 | a share of a positive whole is between 0 and 100 percent, and 100 iff it is the whole |
| `BehaveReport.PassRateBounds` | selenium_behave_framework/utils/report_generator.py:37 | the pass rate lies between 0 and 100, and is 100 for a non-empty run iff every result passed |
| `BehaveReport.Rows` | selenium_behave_framework/utils/report_generator.py:216-223 | one table row per result |
| `BehaveReport.RowDefaults` | selenium_behave_framework/utils/report_generator.py:216-238 | rows are numbered from 1 in order; a missing status shows "Unknown" with class "unknown"; a missing id shows `Test_<n>`; the class is the lower-cased status; the error block appears iff the error message is truthy |
| `BehaveExecutor.Inputs` | selenium_behave_framework/keywords/keyword_executor.py:253-258 | one executor input per keyword step of a screen, the test data as `str(value or '')` |
| `BehaveExecutor.RowInputs` | selenium_behave_framework/keywords/keyword_executor.py:162-167 | one executor input per row of a direct run, a missing key reading as `''` |
| `BehaveExecutor.OutcomeOf` | selenium_behave_framework/keywords/keyword_executor.py:265-276 | a step raises iff the engine call fails, and the engine's variables carry over |
| `BehaveExecutor.StepsContinue` | selenium_behave_framework/keywords/keyword_executor.py:253-289 | the step loop of a screen only appends entries: all Passed if it ran through, and all Passed but a last Failed one carrying the raised message if it stopped |
| `BehaveExecutor.ScreensContinue` | selenium_behave_framework/keywords/keyword_executor.py:244-289 | the screen loop has the same shape over the whole flow |
| `BehaveExecutor.ExcelCaseOutcome` | selenium_behave_framework/keywords/keyword_executor.py:213-310 | a case ends Passed, Failed or Error, Passed iff it has no error message; with a driver it fails iff a keyword raised, with "Screen: S, Step: N - M" as its message and that step as its last, Failed entry; it passes iff nothing raised and a configured success screenshot was taken; a driver that cannot be created gives Error with no steps |
| `BehaveExecutor.DirectCaseOutcome` | selenium_behave_framework/keywords/keyword_executor.py:138-211 | a direct run ends Passed, Failed or Error, Passed iff it has no error message; with a driver it fails iff a keyword raised, with the raw message, and passes iff nothing raised |
| `BehaveExecutor.StoppedStays` | selenium_behave_framework/keywords/keyword_executor.py:274-289 | once a keyword has raised, no later step and no later screen runs |
| `BehaveExecutor.EmptyKeywordSkipped` | selenium_behave_framework/keywords/keyword_executor.py:260-261 | a row whose keyword is empty adds no entry and calls nothing |
| `BehaveExecutor.ReturnedValuePasses` | selenium_behave_framework/keywords/keyword_executor.py:265-272 | a keyword that returns, whatever it returns, records one Passed entry with the step's description and does not stop the run |
| `BehaveExecutor.UnknownKeywordFails` | selenium_behave_framework/keywords/keyword_executor.py:274-277 | an unregistered keyword records a Failed entry with "Unknown keyword: K", stops the run and leaves the variables untouched |
| `BehaveExecutor.StepNumbers` | selenium_behave_framework/keywords/keyword_executor.py:253 | the entries of a screen are numbered by row position from 1, restarting at every screen |
| `BehaveExecutor.ScreensSnoc` | selenium_behave_framework/keywords/keyword_executor.py:244-251 | a screen whose sheet cannot be read is skipped; a readable one runs its steps after those of the earlier screens |
| `BehaveExecutor.CountStatus` | selenium_behave_framework/keywords/keyword_executor.py:335-338 | the count of results with one status is at most the number of results |
| `BehaveExecutor.SummaryAgreesWithReport` | selenium_behave_framework/keywords/keyword_executor.py:333-338 | the counts of the summary equal those of the report built from the same results |
| `BehaveExecutor.ReportCountsEnded` | selenium_behave_framework/keywords/keyword_executor.py:333-365 | when every result has ended, the report's Passed, Failed and Error counts add up to the number of results |
| `BehaveExecutor.StatusNamesDistinct` | selenium_behave_framework/keywords/keyword_executor.py:22-32 | two statuses have the same name iff they are the same status |
| `BehaveExecutor.TestResult.constructor` | selenium_behave_framework/keywords/keyword_executor.py:22-32 | a new result is "Not Started", with no steps, no times, no error and no screenshot |
| `BehaveExecutor.TestResult.AddStep` | selenium_behave_framework/keywords/keyword_executor.py:39-47 | one entry at the end of the steps and nothing else changed |
| `BehaveExecutor.KeywordExecutor.constructor` | selenium_behave_framework/keywords/keyword_executor.py:68-88 | each argument falls back to its configured value (the browser when it is falsy); no results, no driver, no engine |
| `BehaveExecutor.KeywordExecutor.SetupDriver` | selenium_behave_framework/keywords/keyword_executor.py:312-319 | a driver and a fresh engine with the full keyword table and no variables, or the error of creating the driver with both left as they were |
| `BehaveExecutor.KeywordExecutor.TeardownDriver` | selenium_behave_framework/keywords/keyword_executor.py:321-331 | afterwards there is no driver; the engine is dropped only if there was a driver |
| `BehaveExecutor.KeywordExecutor.Invoke` | selenium_behave_framework/keywords/keyword_executor.py:265-271 | one engine call, its outcome and the new variables being those of the keyword runner |
| `BehaveExecutor.KeywordExecutor.RunStep` | selenium_behave_framework/keywords/keyword_executor.py:253-289 | one step changes the entries, the variables and the stop exactly as the step specification says, and marks a failure with its message and the guarded screenshot |
| `BehaveExecutor.KeywordExecutor.RunScreen` | selenium_behave_framework/keywords/keyword_executor.py:253-289 | the step loop of a screen ends in the state of the step-loop specification |
| `BehaveExecutor.KeywordExecutor.ReadScreen` | selenium_behave_framework/keywords/keyword_executor.py:247-251 | the keyword steps of the named sheet of the open workbook, or the error that skips it |
| `BehaveExecutor.KeywordExecutor.RunFlow` | selenium_behave_framework/keywords/keyword_executor.py:241-289 | the screen loop ends in the state of the screen-loop specification |
| `BehaveExecutor.KeywordExecutor.RunNextScreen` | selenium_behave_framework/keywords/keyword_executor.py:243-251 | one screen: a missing sheet is skipped, an existing one is run, and the state is that of the screen-loop specification one name further |
| `BehaveExecutor.KeywordExecutor.Settle` | selenium_behave_framework/keywords/keyword_executor.py:291-303 | after the loop the case has passed, failed or erred as the case specification says |
| `BehaveExecutor.KeywordExecutor.RunExcelCase` | selenium_behave_framework/keywords/keyword_executor.py:213-310 | a fresh result with its id and description, started and ended, in the state the case specification gives; the driver is torn down and the results list is left alone |
| `BehaveExecutor.KeywordExecutor.RunTestCase` | selenium_behave_framework/keywords/keyword_executor.py:138-211 | the same for a direct run with an empty description |
| `BehaveExecutor.KeywordExecutor.RunScenarios` | selenium_behave_framework/keywords/keyword_executor.py:111-126 | one fresh result per scenario, appended in order, each as its case specification says; the workbook is closed afterwards |
| `BehaveExecutor.KeywordExecutor.RunAllTests` | selenium_behave_framework/keywords/keyword_executor.py:90-136 | a missing file or an unreadable Master sheet raises and adds nothing; otherwise one result per selected scenario is appended, in order, each recorded as its case specification says, and the results are returned |
| `BehaveExecutor.Advance` | selenium_behave_framework/keywords/keyword_executor.py:255-289 | a stopped run is left as it is; otherwise the earlier entries are kept and at most one is appended |
| `BehaveExecutor.RunSteps` | selenium_behave_framework/keywords/keyword_executor.py:253-289 | a stopped run is left as it is; otherwise the entries only grow, by at most one per step |
| `BehaveExecutor.RunScreens` | selenium_behave_framework/keywords/keyword_executor.py:244-289 | a stopped run is left as it is; otherwise the entries only grow |
| `BehaveExecutor.ExcelCase` | selenium_behave_framework/keywords/keyword_executor.py:213-310 | a failed setup ends in Error with its message and no steps; no screen flow ends in Error with "'NoneType' object has no attribute 'split'"; Passed needs a setup, a flow and no error message |
| `BehaveExecutor.DirectCase` | selenium_behave_framework/keywords/keyword_executor.py:138-211 | a failed setup ends in Error with its message and no steps; Passed needs a setup, no error message and no screenshot |
| `PlaywrightKeywords.NormalizeIdempotent` | framework/keywords/keyword_engine.py:51 | normalising a keyword (upper-case, then strip) twice is normalising it once |
| `PlaywrightKeywords.PageStep` | framework/keywords/keyword_engine.py:101-107 | a page-level handler succeeds iff its page call does, reporting the success text or the failure prefix followed by the error |
| `PlaywrightKeywords.LocatorStep` | framework/keywords/keyword_engine.py:109-116 | an element handler succeeds iff its call on `page.locator(locator)` does, reported the same way |
| `PlaywrightKeywords.VerifyTextHandler` | framework/keywords/keyword_engine.py:136-146 | `verify_text` succeeds iff the element has text content and it contains the expected text |
| `PlaywrightKeywords.VerifyPageHandler` | framework/keywords/keyword_engine.py:148-168 | `verify_title` and `verify_url` succeed iff the page answers, the expected cell is not empty and the answer contains it; a page error, or `None` as the expected text ("'in <string>' requires string as left operand, not NoneType"), is reported as a failure |
| `PlaywrightKeywords.WaitHandler` | framework/keywords/keyword_engine.py:170-177 | an empty or `None` `seconds` waits one second and succeeds; otherwise the wait succeeds iff the sleep does |
| `PlaywrightKeywords.TimeoutMs` | framework/keywords/keyword_engine.py:344 | the timeout is 10000 ms for an empty value, the integer value times 1000 otherwise, and a ValueError for a non-integer value |
| `PlaywrightKeywords.WaitForElementHandler` | framework/keywords/keyword_engine.py:341-349 | it succeeds iff the timeout parses and the element becomes visible within it; a bad timeout is reported as "Element not found: " followed by the ValueError |
| `PlaywrightKeywords.GetTextHandler` | framework/keywords/keyword_engine.py:241-248 | `get_text` succeeds iff the page answers, whatever the text is |
| `PlaywrightKeywords.ProbeHandler` | framework/keywords/keyword_engine.py:250-266 | `is_visible` and `is_enabled` succeed iff the page answers, and report the state it gives |
| `PlaywrightKeywords.ExecuteKeyword` | framework/keywords/keyword_engine.py:45-97 | an unsupported normalised name gives failure with "Keyword 'K' is not supported"; a supported one runs its handler |
| `PlaywrightKeywords.SupportedNames` | framework/keywords/keyword_engine.py:11-84 | the table holds the 27 documented names and WAIT_FOR_ELEMENT, which the docstring leaves out |
| `PlaywrightKeywords.ExecuteNormalizes` | framework/keywords/keyword_engine.py:51 | case and surrounding whitespace of the keyword never change the outcome |
| `PlaywrightKeywords.UnsupportedIgnoresPage` | framework/keywords/keyword_engine.py:86-92 | an unsupported keyword fails whatever the page, because no handler runs |
| `PlaywrightKeywords.ValueIgnored` | framework/keywords/keyword_engine.py:100-339 | every handler but ENTER, SELECT and WAIT_FOR_ELEMENT ignores the value cell |
| `PlaywrightKeywords.NavigateUsesLocator` | framework/keywords/keyword_engine.py:101-107 | NAVIGATE goes to the locator cell's text, so a URL only in the value cell is never visited |
| `PlaywrightKeywords.VerifyTitleUsesLocator` | framework/keywords/keyword_engine.py:148-157 | VERIFY_TITLE passes iff the title is read, the locator cell holds text and the title contains it case-sensitively; an empty cell fails the step with the `None in title` TypeError |
| `PlaywrightKeywords.VerifyUrlUsesLocator` | framework/keywords/keyword_engine.py:159-168 | VERIFY_URL passes iff the URL is read, the locator cell holds text and the URL contains it; an empty cell fails the step with the same TypeError |
| `PlaywrightKeywords.WaitDefault` | framework/keywords/keyword_engine.py:170-177 | WAIT with an empty locator cell (`None` or `""`) waits one second and succeeds, whatever the value cell holds |
| `PlaywrightKeywords.WaitForElementTimeout` | framework/keywords/keyword_engine.py:341-349 | WAIT_FOR_ELEMENT waits 10000 ms for an empty value, value*1000 ms for an integer, and fails with the ValueError otherwise |
| `PlaywrightKeywords.QueriesSucceed` | framework/keywords/keyword_engine.py:241-266 | GET_TEXT, IS_VISIBLE and IS_ENABLED are not assertions: they succeed whenever the page answers |
| `PlaywrightKeywords.OneCallHandlers` | framework/keywords/keyword_engine.py:100-339 | a handler making one browser call succeeds iff that call does |
| `PlaywrightKeywords.Run` | framework/keywords/keyword_engine.py:101-349 | every handler's outcome carries a non-empty message |
| `PlaywrightKeywords.Dispatch` | framework/keywords/keyword_engine.py:86-92 | success only for a supported keyword; an unsupported one gives `(False, "Keyword 'K' is not supported")` |
| `PlaywrightReport.CountStatus` | framework/utils/report_generator.py:39-40 | the count of results with a given status is at most the number of results |
| `PlaywrightReport.Summarize` | framework/utils/report_generator.py:38-40 | the total is the number of results, and the PASS and FAIL counts together do not exceed it |
| `PlaywrightReport.PassRate` | framework/utils/report_generator.py:41 | the pass percentage is 0 without results |
| `PlaywrightReport.Duration` | framework/utils/report_generator.py:43 | the duration is 0 unless both the start and the end were marked |
| `PlaywrightReport.RowClass` | framework/utils/report_generator.py:230 | the row class is "pass" iff the status is PASS and "fail" otherwise |
| `PlaywrightReport.ScreenshotLink` | framework/utils/report_generator.py:231-233 | a link appears iff the screenshot path is non-empty, and it points at that path |
| `PlaywrightReport.CountBoth` | framework/utils/report_generator.py:39-40 | no result is counted both as PASS and as FAIL |
| `PlaywrightReport.CountStatusAppend` | framework/utils/report_generator.py:39-40 | counting distributes over appending results |
| `PlaywrightReport.CountsCoverIff` | framework/utils/report_generator.py:38-40 | passed plus failed equals the total iff every status is PASS or FAIL |
| `PlaywrightReport.OtherStatusUncounted` | framework/utils/report_generator.py:39-40 | a result with another status is in neither count, yet its row gets the "fail" class |
| `PlaywrightReport.PassRateBounds` | framework/utils/report_generator.py:41 | the pass percentage lies between 0 and 100 |
| `PlaywrightReport.ReportGenerator.constructor` | framework/utils/report_generator.py:11-14 | a new generator has no results and neither time marked |
| `PlaywrightReport.ReportGenerator.StartExecution` | framework/utils/report_generator.py:16-18 | the start time is set and nothing else changes |
| `PlaywrightReport.ReportGenerator.EndExecution` | framework/utils/report_generator.py:20-22 | the end time is set and nothing else changes |
| `PlaywrightReport.ReportGenerator.AddTestResult` | framework/utils/report_generator.py:24-34 | one entry is appended and the earlier entries are untouched |
| `PlaywrightReport.ReportGenerator.GenerateReport` | framework/utils/report_generator.py:36-43 | the summary counts the results, PASS and FAIL separately; the pass rate is `PassRate` of that summary, passed / total * 100 and 0 without results, so between 0 and 100; the duration is end minus start, or 0 when either is missing |
| `PlaywrightExcel.Headers` | framework/core/excel_reader.py:50-52 | the master headers are every cell of row 1, empty ones included |
| `PlaywrightExcel.Records` | framework/core/excel_reader.py:56-60 | one record per row from 2 to the last row |
| `PlaywrightExcel.RecordKeys` | framework/core/excel_reader.py:57-60 | the keys of a record are exactly the header cells |
| `PlaywrightExcel.RecordLastWins` | framework/core/excel_reader.py:58-60 | each header holds the cell under its last occurrence |
| `PlaywrightExcel.SelectedExactly` | framework/core/excel_reader.py:63-64 | a row is selected iff its Execute cell, stripped and upper-cased, is YES or Y; a missing column or an empty cell never selects |
| `PlaywrightExcel.TrueAndOneRejected` | framework/core/excel_reader.py:63-64 | the Execute values "true" and "1" do not select a row |
| `PlaywrightExcel.RecordsExactly` | framework/core/excel_reader.py:56-60 | the records are exactly those of rows 2 to the last row |
| `PlaywrightExcel.MasterReadExactly` | framework/core/excel_reader.py:33-74 | a record is returned iff its row, from row 2 on, is selected, and each has every header of row 1 as a key |
| `PlaywrightExcel.MasterOrder` | framework/core/excel_reader.py:56-65 | the selected cases keep sheet order |
| `PlaywrightExcel.Locators` | framework/core/excel_reader.py:100-103 | one locator per field, read from row 2 |
| `PlaywrightExcel.TextRow` | framework/core/excel_reader.py:117-120 | the keyword row has one entry per field, an empty cell read as "" |
| `PlaywrightExcel.ValuesRow` | framework/core/excel_reader.py:123-127 | the value row is the next row, or empty when the keyword row is the last one |
| `PlaywrightExcel.RowSteps` | framework/core/excel_reader.py:135-143 | a pair has at most one step per field |
| `PlaywrightExcel.PairCases` | framework/core/excel_reader.py:111-149 | one test case per pair of rows, before the empty ones are dropped |
| `PlaywrightExcel.ScreenOf` | framework/core/excel_reader.py:76-163 | a screen that is read carries its own name |
| `PlaywrightExcel.PairCasesSnoc` | framework/core/excel_reader.py:115-149 | one more pair adds its test case at the end |
| `PlaywrightExcel.PairRows` | framework/core/excel_reader.py:112-148 | the keyword rows are exactly rows 3, 5, 7 and so on, up to `max_row` |
| `PlaywrightExcel.LocatorMapKeys` | framework/core/excel_reader.py:106-108 | the locator map's keys are exactly the fields |
| `PlaywrightExcel.LocatorLastWins` | framework/core/excel_reader.py:106-108 | a repeated field name maps to the locator under its last occurrence |
| `PlaywrightExcel.RowStepsExactly` | framework/core/excel_reader.py:135-143 | a step is produced iff its column has a non-empty keyword, and it carries the field, its locator cell as read (`None` when empty), the keyword and the value below |
| `PlaywrightExcel.TrailingRowValues` | framework/core/excel_reader.py:141 | without a value row every value is "" |
| `PlaywrightExcel.TrailingKeywordRow` | framework/core/excel_reader.py:124-141 | the last pair of a sheet with an even `max_row` has no value row, so all its values are "" |
| `PlaywrightExcel.ScreenCasesExactly` | framework/core/excel_reader.py:110-149 | a case is kept iff its pair has a step, and it is named `<screen>_TC<n>` after its pair's position |
| `PlaywrightExcel.KeptCasesExactly` | framework/core/excel_reader.py:145-149 | the kept cases of the first pairs are those with steps, each numbered after its pair |
| `PlaywrightExcel.NumberingSkipsEmptyPair` | framework/core/excel_reader.py:145-149 | when the first pair is empty and the second is not, the first case is numbered TC2 |
| `PlaywrightExcel.FlowNames` | framework/core/excel_reader.py:172 | a flow gives one trimmed name per comma-separated part, empty names kept |
| `PlaywrightExcel.FlowOf` | framework/core/excel_reader.py:175-186 | the flow data has at most one entry per name |
| `PlaywrightExcel.FlowOfParses` | framework/core/excel_reader.py:175-186 | the entries are the successful reads of the names, in order, duplicates kept |
| `PlaywrightExcel.FlowOfExactly` | framework/core/excel_reader.py:165-190 | an entry is a readable screen named in the flow, and every readable screen named has an entry |
| `PlaywrightExcel.WalkTransparent` | framework/core/excel_reader.py:175-186 | with a consistent cache the flow data is what reading every screen afresh gives, and the cache stays consistent |
| `PlaywrightExcel.WalkNoReread` | framework/core/excel_reader.py:176-182 | a cached screen is never read again, and only names of the flow are read |
| `PlaywrightExcel.WalkParsesOnce` | framework/core/excel_reader.py:157-177 | a screen read successfully is cached, so it is read only once |
| `PlaywrightExcel.ExcelReader.constructor` | framework/core/excel_reader.py:12-17 | no workbook, no master data, an empty screen cache |
| `PlaywrightExcel.ExcelReader.LoadWorkbook` | framework/core/excel_reader.py:19-31 | True iff the file exists, and then the workbook is replaced; otherwise the old workbook stays; the cache is not cleared |
| `PlaywrightExcel.ExcelReader.ReadMasterSheet` | framework/core/excel_reader.py:33-74 | the selected rows, also stored; without the Master sheet or a workbook, `[]` with the stored rows kept |
| `PlaywrightExcel.ExcelReader.ReadScreenSheet` | framework/core/excel_reader.py:76-163 | the parsed screen, cached when found, or None without a workbook or a sheet of that name |
| `PlaywrightExcel.ExcelReader.GetTestDataForFlow` | framework/core/excel_reader.py:165-190 | an empty flow cell gives `[]` and reads nothing; otherwise the flow data and the new cache of the cached walk over its names |
| `PlaywrightExcel.ExcelReader.ReadFlow` | framework/core/excel_reader.py:175-186 | the loop over the screen names ends in the state of the cached walk |
| `PlaywrightExcel.ExcelReader.GetAllTestCases` | framework/core/excel_reader.py:198-200 | the rows stored by the last master read |
| `PlaywrightExcel.CollectHeaders` | framework/core/excel_reader.py:50-52 | the header loop collects every cell of row 1 |
| `PlaywrightExcel.SelectRecords` | framework/core/excel_reader.py:55-65 | the row loop returns the selected records in order |
| `PlaywrightExcel.ReadRecord` | framework/core/excel_reader.py:57-60 | the inner loop builds the record header by header |
| `PlaywrightExcel.ParseScreenSheet` | framework/core/excel_reader.py:89-159 | the body of `read_screen_sheet` returns the parsed screen |
| `PlaywrightExcel.CollectFields` | framework/core/excel_reader.py:93-97 | the field loop keeps the non-empty cells of row 1 |
| `PlaywrightExcel.ReadLocators` | framework/core/excel_reader.py:100-103 | the locator loop reads row 2 under the fields |
| `PlaywrightExcel.BuildLocatorMap` | framework/core/excel_reader.py:106-108 | the map loop builds the locator map |
| `PlaywrightExcel.ReadTextRow` | framework/core/excel_reader.py:117-127 | a row loop reads one entry per field |
| `PlaywrightExcel.ReadRowSteps` | framework/core/excel_reader.py:135-143 | the step loop builds the steps of one pair |
| `PlaywrightExcel.ReadPair` | framework/core/excel_reader.py:116-143 | one iteration body builds the test case of its pair |
| `PlaywrightExcel.ReadPairs` | framework/core/excel_reader.py:111-149 | the `while` loop returns the cases with steps, numbered by pair |
| `PlaywrightExcel.ReadNextPair` | framework/core/excel_reader.py:145-149 | one iteration keeps the next pair's case iff it has steps |
| `PlaywrightExcel.MasterRead` | framework/core/excel_reader.py:33-74 | the Master sheet is read iff the workbook loaded and has that sheet, with at most one record per row from 2 to `max_row` |
| `PlaywrightExcel.MasterReadSelected` | framework/core/excel_reader.py:33-74 | every record read from the Master sheet is marked for execution |
| `PlaywrightExcel.ParseScreen` | framework/core/excel_reader.py:76-163 | the data keeps the screen's name and has at most one test case per keyword and value row pair |
| `PlaywrightExcel.Visit` | framework/core/excel_reader.py:176-182 | one screen of the flow: the data grows by at most that screen, and its sheet is read iff it was not cached |
| `PlaywrightExcel.Walk` | framework/core/excel_reader.py:175-186 | the flow data keeps what it had and grows by at most one screen per name |
| `PlaywrightExecutor.Get` | framework/core/test_executor.py:58-60 | `dict.get(key, default)`: the stored cell when the key is present, the default otherwise |
| `PlaywrightExecutor.KeywordSession` | framework/core/test_executor.py:65-70 | a keyword session keeps the launch outcome, the screenshot oracle and the injected fault of its inputs |
| `PlaywrightExecutor.Screens` | framework/core/test_executor.py:84-93 | one step list per screen of the flow: the steps of its first test case |
| `PlaywrightExecutor.CaseRun` | framework/core/test_executor.py:52-152 | a passed case has an empty error message |
| `PlaywrightExecutor.NextCase` | framework/core/test_executor.py:173-174 | a case only appends entries, and a case whose browser did not start leaves the screen cache untouched |
| `PlaywrightExecutor.CasePassIff` | framework/core/test_executor.py:52-142 | a case passes iff the browser started, the flow has data and every step of the first test case of every screen succeeds |
| `PlaywrightExecutor.KeywordCasePassIff` | framework/core/test_executor.py:52-142 | the same with the keyword engine's own verdict: the n-th step runs `execute_keyword` on the n-th page with the step's locator cell, `None` included |
| `PlaywrightExecutor.FirstFailureStops` | framework/core/test_executor.py:100-119 | the first failing step ends the case with its message, no later step runs, and the entry says FAIL with that message |
| `PlaywrightExecutor.EntryIffCompleted` | framework/core/test_executor.py:65-142 | a report entry is added iff the browser started and the flow has data, carrying the id (default "Unknown"), the flow, PASS iff the case passed, and the message; the browser is closed iff it started |
| `PlaywrightExecutor.ShippedScreenshots` | framework/core/test_executor.py:109-126 | with the shipped settings a passing case takes no screenshot and records ""; a failing one takes one named after the failing screen and then `<id>_FAILED`, and records the second |
| `PlaywrightExecutor.OnlyFirstCaseRuns` | framework/core/test_executor.py:88-90 | only the first test case of each screen matters |
| `PlaywrightExecutor.CachedFlow` | framework/core/test_executor.py:73 | with a consistent screen cache, a flow lookup gives the data read afresh and keeps the cache consistent |
| `PlaywrightExecutor.RunCasesFresh` | framework/core/test_executor.py:173-174 | running the cases on a consistent cache adds the entries of the cases with their flows read afresh |
| `PlaywrightExecutor.NextCaseFresh` | framework/core/test_executor.py:174 | one case on a consistent cache adds what it adds on its flow read afresh |
| `PlaywrightExecutor.FreshReaderRun` | framework/core/test_executor.py:154-177 | on a fresh reader the cases add the entries of the cases with their flows read afresh |
| `PlaywrightExecutor.BrowserManager.constructor` | framework/core/browser_manager.py:13-17 | no browser is running |
| `PlaywrightExecutor.BrowserManager.StartBrowser` | framework/core/browser_manager.py:19-60 | it returns whether the launch succeeds, and the browser runs iff it did |
| `PlaywrightExecutor.BrowserManager.CloseBrowser` | framework/core/browser_manager.py:62-77 | the browser no longer runs, and the close is counted |
| `PlaywrightExecutor.RunFlow` | framework/core/test_executor.py:84-119 | the loop over screens and steps ends where the step-run specification ends, at the end or at the first failing step |
| `PlaywrightExecutor.TestExecutor.constructor` | framework/core/test_executor.py:20-25 | a fresh reader, browser manager and report generator, all empty |
| `PlaywrightExecutor.TestExecutor.Initialize` | framework/core/test_executor.py:27-50 | it succeeds iff the workbook loads and at least one case is selected; the selected cases are stored |
| `PlaywrightExecutor.TestExecutor.ExecuteTestCase` | framework/core/test_executor.py:52-152 | the verdict, the message, the report entry and the browser closes are those of the case specification on the flow data of the cached walk; the cache changes only when the browser started |
| `PlaywrightExecutor.TestExecutor.CompleteCase` | framework/core/test_executor.py:80-142 | once the flow has data, the case is run, its entry is appended and the browser is closed |
| `PlaywrightExecutor.TestExecutor.ExecuteAllTests` | framework/core/test_executor.py:154-193 | it succeeds iff initialisation does; then every selected case adds its entries in order, with the start and end times marked; otherwise nothing is reported |
| `PlaywrightExecutor.TestExecutor.ExecuteCases` | framework/core/test_executor.py:173-174 | the loop over the selected cases ends in the state of the cache-threading specification |
| `PlaywrightExecutor.TestExecutor.ExecuteNext` | framework/core/test_executor.py:174 | one iteration moves the loop invariant from case i to case i+1 |
| `PlaywrightExecutor.ShotNames` | framework/core/test_executor.py:109-126 | at most two screenshots; some is taken iff the setting for the outcome is on, and the last is `<id>_PASSED` or `<id>_FAILED` by the outcome |
| `PlaywrightExecutor.FlowData` | framework/core/test_executor.py:72-73 | no screen flow gives no data; otherwise at most one entry per comma-separated name |
| `PlaywrightExecutor.Entries` | framework/core/test_executor.py:173-174 | when each case yields at most one entry, there is at most one entry per case |
| `PlaywrightExecutor.RunCases` | framework/core/test_executor.py:173-174 | the run keeps at most one entry per case under the same condition |
| `PlaywrightExecutor.MasterCases` | framework/core/test_executor.py:38-41 | no case when the Master sheet cannot be read, and every case returned is marked for execution |
| `SeleniumExcel.Headers` | selenium_framework/framework/core/excel_reader.py:63-66 | the master headers are the non-empty cells of row 1, trimmed, so never more than the columns |
| `SeleniumExcel.Records` | selenium_framework/framework/core/excel_reader.py:76-80 | one record per row from 2 to the last row |
| `SeleniumExcel.RecordKeys` | selenium_framework/framework/core/excel_reader.py:77-80 | the keys of a record are exactly the headers |
| `SeleniumExcel.RecordLastWins` | selenium_framework/framework/core/excel_reader.py:78-80 | each header holds the text of the cell under its last occurrence, an empty cell read as "" |
| `SeleniumExcel.RecordsExactly` | selenium_framework/framework/core/excel_reader.py:76-80 | the records are exactly those of rows 2 to the last row |
| `SeleniumExcel.MasterCasesExactly` | selenium_framework/framework/core/excel_reader.py:46-87 | with the required columns present, a record is returned iff its row, from row 2 on, is selected, and every one has the required columns as keys |
| `SeleniumExcel.MasterOrder` | selenium_framework/framework/core/excel_reader.py:76-84 | the selected cases keep sheet order |
| `SeleniumExcel.CollectHeaders` | selenium_framework/framework/core/excel_reader.py:63-66 | the header loop collects the trimmed non-empty cells of row 1 |
| `SeleniumExcel.LocatorRow` | selenium_framework/framework/core/excel_reader.py:121-124 | one locator per field, trimmed, an empty cell read as "" |
| `SeleniumExcel.DataRow` | selenium_framework/framework/core/excel_reader.py:129-132 | one entry per field, each cell trimmed, an empty cell read as "" |
| `SeleniumExcel.RawRows` | selenium_framework/framework/core/excel_reader.py:128-132 | one data row per sheet row from 3 to the last row |
| `SeleniumExcel.DataRowsExactly` | selenium_framework/framework/core/excel_reader.py:127-136 | a data row is kept iff it is one of rows 3 to the last and holds some text |
| `SeleniumExcel.ScreenShape` | selenium_framework/framework/core/excel_reader.py:93-149 | a screen is read iff its sheet exists and row 1 names a field; then it has one locator per field, and its data rows are exactly the rows from 3 on that hold text, one entry per field |
| `SeleniumExcel.FlowOf` | selenium_framework/framework/core/excel_reader.py:169-178 | the flow data has at most one entry per name |
| `SeleniumExcel.FlowOfSnoc` | selenium_framework/framework/core/excel_reader.py:170-176 | one more name adds its screen, tagged with its name, when that screen can be read |
| `SeleniumExcel.FlowOfAppend` | selenium_framework/framework/core/excel_reader.py:170-176 | reading a flow distributes over concatenating the name list |
| `SeleniumExcel.FlowOfExactly` | selenium_framework/framework/core/excel_reader.py:151-182 | every entry is a readable screen named in the flow, and every readable screen named has an entry |
| `SeleniumExcel.PairSteps` | selenium_framework/framework/core/excel_reader.py:207-222 | a row pair gives at most one step per field |
| `SeleniumExcel.PairStepsFields` | selenium_framework/framework/core/excel_reader.py:207-222 | every step of a row pair names one of the fields |
| `SeleniumExcel.PairsStepsNext` | selenium_framework/framework/core/excel_reader.py:201-222 | the steps of the row pairs are those of the earlier pairs followed by those of the next |
| `SeleniumExcel.ParseStepsBound` | selenium_framework/framework/core/excel_reader.py:184-228 | at most one step per field and row pair, each naming a field |
| `SeleniumExcel.TrailingRowIgnored` | selenium_framework/framework/core/excel_reader.py:202 | a trailing keyword row without a value row adds no step |
| `SeleniumExcel.DataRowTrimmed` | selenium_framework/framework/core/excel_reader.py:132 | the cells of a data row are trimmed |
| `SeleniumExcel.ScreenStepsHaveKeywords` | selenium_framework/framework/core/excel_reader.py:132-222 | since the cells are trimmed, every step parsed from a screen sheet has a non-empty keyword |
| `SeleniumExcel.Without` | selenium_framework/framework/core/excel_reader.py:252 | the sheet names other than the Master's, and only those |
| `SeleniumExcel.ScreenNames` | selenium_framework/framework/core/excel_reader.py:239-258 | every sheet name but the Master's once a workbook is loaded, none before |
| `SeleniumExcel.ColumnErrors` | selenium_framework/framework/core/excel_reader.py:281-283 | one error at most per required column, and none iff every required column is present |
| `SeleniumExcel.RowsErrors` | selenium_framework/framework/core/excel_reader.py:287-292 | one error at most per screen sheet, and none iff every screen sheet has at least two rows |
| `SeleniumExcel.Validate` | selenium_framework/framework/core/excel_reader.py:260-299 | the structure is valid iff there is no error, and without a workbook or a Master sheet there is an error |
| `SeleniumExcel.ValidateExactly` | selenium_framework/framework/core/excel_reader.py:260-299 | a loaded workbook is valid iff it has the Master sheet with the four required columns and every other sheet has at least two rows; at most one error per column and sheet |
| `SeleniumExcel.ExcelReader.constructor` | selenium_framework/framework/core/excel_reader.py:15-24 | no workbook is loaded |
| `SeleniumExcel.ExcelReader.LoadWorkbook` | selenium_framework/framework/core/excel_reader.py:26-44 | True iff the file exists, and then the workbook is replaced; otherwise the old one stays |
| `SeleniumExcel.ExcelReader.ReadMasterSheet` | selenium_framework/framework/core/excel_reader.py:46-91 | the selected cases of the loaded workbook, `[]` without a workbook, a Master sheet or a required column |
| `SeleniumExcel.ExcelReader.ReadScreenSheet` | selenium_framework/framework/core/excel_reader.py:93-149 | the screen read from the loaded workbook, None when it cannot be read |
| `SeleniumExcel.ExcelReader.GetTestDataForFlow` | selenium_framework/framework/core/excel_reader.py:151-182 | the readable screens of the flow's non-empty trimmed names, in order |
| `SeleniumExcel.ExcelReader.ReadFlow` | selenium_framework/framework/core/excel_reader.py:169-178 | the loop returns the readable screens among the names |
| `SeleniumExcel.ExcelReader.ParseTestSteps` | selenium_framework/framework/core/excel_reader.py:184-228 | the steps parsed from the screen's row pairs |
| `SeleniumExcel.ExcelReader.ValidateExcelStructure` | selenium_framework/framework/core/excel_reader.py:260-299 | the verdict and the errors of the structure check |
| `SeleniumExcel.SelectRecords` | selenium_framework/framework/core/excel_reader.py:76-84 | the row loop returns the selected records in order |
| `SeleniumExcel.ReadRecord` | selenium_framework/framework/core/excel_reader.py:77-80 | the inner loop builds the record header by header |
| `SeleniumExcel.ReadLocators` | selenium_framework/framework/core/excel_reader.py:121-124 | the locator loop reads row 2 under the fields |
| `SeleniumExcel.ReadDataRow` | selenium_framework/framework/core/excel_reader.py:129-132 | the inner loop reads one data row |
| `SeleniumExcel.ReadDataRows` | selenium_framework/framework/core/excel_reader.py:127-136 | the row loop keeps the rows from 3 on that hold text |
| `SeleniumExcel.PairRowSteps` | selenium_framework/framework/core/excel_reader.py:207-222 | the column loop builds the steps of one row pair |
| `SeleniumExcel.CheckColumns` | selenium_framework/framework/core/excel_reader.py:281-283 | the column loop reports each missing required column in order |
| `SeleniumExcel.CheckRows` | selenium_framework/framework/core/excel_reader.py:286-292 | the sheet loop reports each screen sheet with fewer than two rows, in order |
| `SeleniumExcel.MasterCases` | selenium_framework/framework/core/excel_reader.py:46-87 | some case is returned only when a loaded workbook has a Master sheet with the required columns |
| `SeleniumExcel.KeptRows` | selenium_framework/framework/core/excel_reader.py:127-136 | at most one row per sheet row from 3 to the last, and every row kept holds some text |
| `SeleniumExcel.FlowData` | selenium_framework/framework/core/excel_reader.py:151-182 | at most one screen per non-blank name of the flow |
| `SeleniumExcel.ParseSteps` | selenium_framework/framework/core/excel_reader.py:184-228 | fewer than two test data rows, so no keyword and value pair, give no step |
| `SeleniumExecutor.Get` | selenium_framework/framework/core/test_executor.py:107-109 | `dict.get(key, default)`: the stored value when the key is present, the default otherwise |
| `SeleniumExecutor.KeywordSession` | selenium_framework/framework/core/test_executor.py:120-125 | a keyword session keeps the launch outcome and the pages of its inputs |
| `SeleniumExecutor.StepFailure` | selenium_framework/framework/core/test_executor.py:164 | the failure reason "Step N failed: M" is never empty |
| `SeleniumExecutor.Screens` | selenium_framework/framework/core/test_executor.py:134-140 | one step list per screen of the flow, as `parse_test_steps` reads it |
| `SeleniumExecutor.CaseRun` | selenium_framework/framework/core/test_executor.py:97-214 | a case passes iff its failure reason is empty |
| `SeleniumExecutor.Flows` | selenium_framework/framework/core/test_executor.py:237-242 | one flow per selected case |
| `SeleniumExecutor.Entry` | selenium_framework/framework/core/test_executor.py:204-212 | the entry has PASS iff the case passed, the id with the default "Unknown", and duration 0 |
| `SeleniumExecutor.Entries` | selenium_framework/framework/core/test_executor.py:237-242 | one entry per case run |
| `SeleniumExecutor.FirstWithId` | selenium_framework/framework/core/test_executor.py:310-314 | the first case with the given id, or none when no case has it |
| `SeleniumExecutor.CasePassIff` | selenium_framework/framework/core/test_executor.py:97-214 | a case passes iff the browser starts, the flow has screens and every step of the flow succeeds |
| `SeleniumExecutor.KeywordCasePassIff` | selenium_framework/framework/core/test_executor.py:97-214 | the same with the keyword engine's own verdict for the n-th step on the n-th page |
| `SeleniumExecutor.ScreenshotPolicy` | selenium_framework/framework/core/test_executor.py:172-188 | a screenshot is kept only when the settings ask for one for that outcome; none without a driver; a start that fails but leaves the driver set gives, with failure shots on, what saving `<id>_ERROR` through it returns |
| `SeleniumExecutor.FlowLinkIff` | selenium_framework/framework/core/test_executor.py:128 | the flow a case runs is exactly the reader's flow data for its ScreenFlow |
| `SeleniumExecutor.FlowsLinked` | selenium_framework/framework/core/test_executor.py:237-242 | each selected case gets the reader's flow data |
| `SeleniumExecutor.EntriesAt` | selenium_framework/framework/core/test_executor.py:237-242 | the i-th entry belongs to the i-th case, run in the i-th session |
| `SeleniumExecutor.EntriesOfWorkbook` | selenium_framework/framework/core/test_executor.py:216-277 | with the workbook's flow data, the i-th entry is the report of the i-th selected case |
| `SeleniumExecutor.RunFlow` | selenium_framework/framework/core/test_executor.py:134-170 | the loop over the screens ends where the step-run specification ends, at the end or at the first failing step |
| `SeleniumExecutor.RunScreen` | selenium_framework/framework/core/test_executor.py:147-166 | the loop over one screen's steps stops at the first failing step with that step's fault and keyword count, as the step-run specification does, and otherwise hands the run on to the next screen |
| `SeleniumExecutor.RunCase` | selenium_framework/framework/core/test_executor.py:107-193 | the body of `execute_test_case` gives the case specification's result |
| `SeleniumExecutor.FindCase` | selenium_framework/framework/core/test_executor.py:310-314 | the search loop finds the first case with the id |
| `SeleniumExecutor.TestExecutor.constructor` | selenium_framework/framework/core/test_executor.py:20-28 | no reader, no cases, zero counters and an empty report |
| `SeleniumExecutor.TestExecutor.OpenReader` | selenium_framework/framework/core/test_executor.py:54-66 | a new reader holds the file; the answer is True iff the file loads and its structure is valid, and no counter or case list changes |
| `SeleniumExecutor.TestExecutor.Initialize` | selenium_framework/framework/core/test_executor.py:30-95 | it succeeds iff the workbook loads, validates and has a selected case; the cases are stored and counted |
| `SeleniumExecutor.TestExecutor.ExecuteTestCase` | selenium_framework/framework/core/test_executor.py:97-214 | one case: the passed or the failed counter goes up by one, one report entry is appended, and the result is the case specification's |
| `SeleniumExecutor.TestExecutor.ExecuteCases` | selenium_framework/framework/core/test_executor.py:237-242 | the loop appends the entries of every selected case, in order |
| `SeleniumExecutor.TestExecutor.ExecuteNext` | selenium_framework/framework/core/test_executor.py:242 | one iteration appends the entry of the next case |
| `SeleniumExecutor.TestExecutor.ExecuteAllTests` | selenium_framework/framework/core/test_executor.py:216-284 | after a failed initialisation nothing is reported and the answer is False; otherwise every selected case is reported in order, the answer is True iff every entry says PASS, the selected cases and their number are kept, and the report's start and end marks are the two clock readings; a failed initialisation leaves the marks as they were |
| `SeleniumExecutor.TestExecutor.ExecuteSingleTest` | selenium_framework/framework/core/test_executor.py:295-335 | the first selected case with the id is run and reported between the two clock readings, which become the report's start and end marks, and its verdict returned; without one, False, nothing reported and the marks left as they were; the selected cases and their number are kept as `initialize` sets them |
| `SeleniumExecutor.ErrorShot` | selenium_framework/framework/core/test_executor.py:183-188 | after an exception, a screenshot only when failure shots are on and a driver is set, even one left by a failed start, and then what saving `<id>_ERROR` through it returns |
| `SeleniumKeywords.NormalizeIdempotent` | selenium_framework/framework/keywords/keyword_engine.py:111 | stripping and upper-casing a keyword twice is the same as doing it once |
| `SeleniumKeywords.ValueOr` | selenium_framework/framework/keywords/keyword_engine.py:131 | the value when it is non-empty, the locator otherwise |
| `SeleniumKeywords.OnElement` | selenium_framework/framework/keywords/keyword_engine.py:171-184 | a locator is required, the element must be found, and the one action on it must succeed; the message on success is fixed |
| `SeleniumKeywords.ProbeElement` | selenium_framework/framework/keywords/keyword_engine.py:585-630 | with a locator and a found element, success iff the probe answers, whatever it answers |
| `SeleniumKeywords.NavigateHandler` | selenium_framework/framework/keywords/keyword_engine.py:129-136 | the value, or else the locator, is the URL; success iff some URL is given and the page load succeeds |
| `SeleniumKeywords.EnterTextHandler` | selenium_framework/framework/keywords/keyword_engine.py:155-169 | success iff there is a locator, the element is found, and both clearing it and typing the value succeed |
| `SeleniumKeywords.SelectHandler` | selenium_framework/framework/keywords/keyword_engine.py:188-189 | an empty locator fails with "No locator provided" |
| `SeleniumKeywords.SelectOrder` | selenium_framework/framework/keywords/keyword_engine.py:186-224 | visible text is tried first, then the value, then the index when the value is an integer; success iff one of them works, and failing all three names the value |
| `SeleniumKeywords.ClickHandler` | selenium_framework/framework/keywords/keyword_engine.py:226-244 | success iff the element becomes clickable and either the click or the script click after it succeeds |
| `SeleniumKeywords.VerifyTextHandler` | selenium_framework/framework/keywords/keyword_engine.py:280-296 | success iff the element's text contains the value, ignoring case |
| `SeleniumKeywords.VerifyTitleHandler` | selenium_framework/framework/keywords/keyword_engine.py:298-308 | success iff the page title contains the expected title, ignoring case |
| `SeleniumKeywords.VerifyUrlHandler` | selenium_framework/framework/keywords/keyword_engine.py:310-320 | success iff the current URL contains the expected URL, case matters |
| `SeleniumKeywords.VerifyElementHandler` | selenium_framework/framework/keywords/keyword_engine.py:322-333 | success iff there is a locator and the element is found |
| `SeleniumKeywords.WaitHandler` | selenium_framework/framework/keywords/keyword_engine.py:335-342 | an empty value waits 1 second and succeeds; otherwise success iff the value parses as seconds |
| `SeleniumKeywords.TimeoutOf` | selenium_framework/framework/keywords/keyword_engine.py:349 | no timeout for an empty value, the integer otherwise, and an error for a non-integer |
| `SeleniumKeywords.WaitForElementHandler` | selenium_framework/framework/keywords/keyword_engine.py:344-357 | success iff there is a locator, the timeout parses and the element becomes visible; a bad timeout escapes the handler |
| `SeleniumKeywords.SetCheckedHandler` | selenium_framework/framework/keywords/keyword_engine.py:359-391 | the box is clicked only when its selection differs from the wanted one; success iff the state is read and, if needed, the click succeeds |
| `SeleniumKeywords.DragDropHandler` | selenium_framework/framework/keywords/keyword_engine.py:425-443 | both locators are required, both elements must be found, and the drag must succeed |
| `SeleniumKeywords.KeyFor` | selenium_framework/framework/keywords/keyword_engine.py:448-461 | a named key iff the upper-cased value is one of the ten key names; otherwise the text itself |
| `SeleniumKeywords.PressKeyHandler` | selenium_framework/framework/keywords/keyword_engine.py:445-478 | the key goes to the located element, or to the active element when there is no locator |
| `SeleniumKeywords.AlertHandler` | selenium_framework/framework/keywords/keyword_engine.py:493-526 | success iff the alert call succeeds; a missing alert is reported as "No alert present" |
| `SeleniumKeywords.SwitchWindowHandler` | selenium_framework/framework/keywords/keyword_engine.py:536-553 | an all-digit value is an index that must be in range, anything else is a window handle |
| `SeleniumKeywords.ExecuteScriptHandler` | selenium_framework/framework/keywords/keyword_engine.py:632-639 | the value, or else the locator, is the script; success iff it runs |
| `SeleniumKeywords.Reported` | selenium_framework/framework/keywords/keyword_engine.py:138-153 | the driver wrapper's boolean is the success |
| `SeleniumKeywords.ReadElement` | selenium_framework/framework/keywords/keyword_engine.py:555-583 | success iff there is a locator, the element is found and it answers; the message shows the answer |
| `SeleniumKeywords.ExecuteKeyword` | selenium_framework/framework/keywords/keyword_engine.py:98-127 | an unknown name fails with "Unknown keyword: K"; a success always comes from the mapped handler |
| `SeleniumKeywords.NormalizeNoop` | selenium_framework/framework/keywords/keyword_engine.py:111 | a name already stripped and upper-case is unchanged |
| `SeleniumKeywords.ExecuteNormalizes` | selenium_framework/framework/keywords/keyword_engine.py:111 | surrounding whitespace and letter case in the keyword never change the outcome |
| `SeleniumKeywords.UnknownIgnoresBrowser` | selenium_framework/framework/keywords/keyword_engine.py:113-114 | an unknown keyword touches no browser |
| `SeleniumKeywords.EscapedFaultReported` | selenium_framework/framework/keywords/keyword_engine.py:122-125 | an error escaping a handler becomes a failure naming the keyword |
| `SeleniumKeywords.NoLocatorProvided` | selenium_framework/framework/keywords/keyword_engine.py:155-630 | every element keyword fails with "No locator provided" when the locator is empty |
| `SeleniumKeywords.ActingNeedsLocator` | selenium_framework/framework/keywords/keyword_engine.py:155-357 | the same for typing, selecting, clicking, verifying text or an element, and waiting for one |
| `SeleniumKeywords.ReadingNeedsLocator` | selenium_framework/framework/keywords/keyword_engine.py:359-630 | the same for checking, hovering, scrolling, reading and probing an element |
| `SeleniumKeywords.ValueFallsBackToLocator` | selenium_framework/framework/keywords/keyword_engine.py:129-639 | `NAVIGATE`, `VERIFY_TITLE`, `VERIFY_URL`, `SWITCH_TO_FRAME` and `EXECUTE_SCRIPT` read the locator only when the value is empty |
| `SeleniumKeywords.SwitchWindowOutOfRange` | selenium_framework/framework/keywords/keyword_engine.py:542-546 | an out-of-range window index is rejected and named, for any spelling of the keyword |
| `SeleniumKeywords.WaitForElementBadTimeout` | selenium_framework/framework/keywords/keyword_engine.py:349 | a non-integer timeout is reported by the engine's own catch as an error of `WAIT_FOR_ELEMENT` |
| `SeleniumKeywords.WaitHandlerBadTimeout` | selenium_framework/framework/keywords/keyword_engine.py:349 | the handler itself raises for a non-integer timeout |
| `SeleniumKeywords.DispatchWaitFault` | selenium_framework/framework/keywords/keyword_engine.py:122-125 | an error escaping the `WAIT_FOR_ELEMENT` handler is reported with that name |
| `SeleniumKeywords.DispatchSwitchWindow` | selenium_framework/framework/keywords/keyword_engine.py:85 | `SWITCH_WINDOW` runs the window handler |
| `SeleniumKeywords.DispatchFault` | selenium_framework/framework/keywords/keyword_engine.py:117-125 | an error escaping the handler of a known name is reported with that name |
| `SeleniumKeywords.RunWaitForElement` | selenium_framework/framework/keywords/keyword_engine.py:60 | `WAIT_FOR_ELEMENT` is mapped to the visibility wait handler |
| `SeleniumKeywords.Run` | selenium_framework/framework/keywords/keyword_engine.py:344-349 | only `WAIT_FOR_ELEMENT_VISIBLE` lets an error escape its handler: its `int()` of the timeout is outside any `try` |
| `SeleniumKeywords.Dispatch` | selenium_framework/framework/keywords/keyword_engine.py:111-126 | an unknown name gives `(False, "Unknown keyword: K")`; a known one gives its handler's outcome; success only from a known handler that returns |
| `SeleniumKeywords.FaultMessage` | selenium_framework/framework/keywords/keyword_engine.py:122-125 | "Error executing keyword 'K': E" holds the keyword and then the error's text at their places |
| `SeleniumDriver.Classify` | selenium_framework/framework/core/selenium_driver.py:168-218 | the value the prefix classification picks is a suffix of the trimmed locator |
| `SeleniumDriver.ParseLocator` | selenium_framework/framework/core/selenium_driver.py:168-218 | `_parse_locator` trims the string and keeps a suffix of it as the value |
| `SeleniumDriver.ParseIgnoresSurroundingSpace` | selenium_framework/framework/core/selenium_driver.py:178 | surrounding whitespace never changes the parsed locator |
| `SeleniumDriver.ParseXPath` | selenium_framework/framework/core/selenium_driver.py:180-182 | a locator starting with `//` or `(//` is XPath, taken whole |
| `SeleniumDriver.ParseTagged` | selenium_framework/framework/core/selenium_driver.py:184-210 | a locator starting with a strategy's tag gets that strategy, and the value is what follows the tag |
| `SeleniumDriver.ClassifyTagged` | selenium_framework/framework/core/selenium_driver.py:184-210 | the same for an already trimmed string |
| `SeleniumDriver.ParseUntagged` | selenium_framework/framework/core/selenium_driver.py:212-218 | an untagged locator is taken whole; it is XPath exactly when it contains `/` or starts with `(`, ID otherwise |
| `SeleniumDriver.ParseRendered` | selenium_framework/framework/core/selenium_driver.py:168-218 | writing a tag before a value without trailing whitespace and parsing gives back that strategy and value |
| `SeleniumDriver.WaitTime` | selenium_framework/framework/core/selenium_driver.py:151 | the timeout given when it is non-zero, `DEFAULT_WAIT` for `None` or 0 |
| `SeleniumDriver.ConditionNamed` | selenium_framework/framework/core/selenium_driver.py:237-244 | "visible" and "clickable" select their conditions; every other name waits for presence |
| `SeleniumDriver.WaitForElement` | selenium_framework/framework/core/selenium_driver.py:220-253 | the element is returned iff the wait for the named condition finds it; otherwise `None` |
| `SeleniumDriver.GetElement` | selenium_framework/framework/core/selenium_driver.py:139-166 | the element is returned iff the wait for presence finds it; otherwise `None` |
| `SeleniumDriver.OtherConditionsArePresence` | selenium_framework/framework/core/selenium_driver.py:241-244 | an unknown condition waits exactly as `get_element` does |
| `SeleniumDriver.LookupsAbsorbFaults` | selenium_framework/framework/core/selenium_driver.py:247-253 | a wait that times out or raises gives `None` |
| `SeleniumDriver.StartBrowser` | selenium_framework/framework/core/selenium_driver.py:42-109 | only chrome, firefox and edge, case-insensitively, can start, and each starts iff its launch reaches Started |
| `SeleniumDriver.NavigateTo` | selenium_framework/framework/core/selenium_driver.py:120-137 | True iff the page load returns without error |
| `SeleniumDriver.TakeScreenshot` | selenium_framework/framework/core/selenium_driver.py:255-276 | a path iff the screenshot is saved |
| `SeleniumDriver.GetPageTitle` | selenium_framework/framework/core/selenium_driver.py:278-289 | the title, or "" when reading it fails |
| `SeleniumDriver.GetCurrentUrl` | selenium_framework/framework/core/selenium_driver.py:291-302 | the URL, or "" when reading it fails |
| `SeleniumDriver.SwitchToFrame` | selenium_framework/framework/core/selenium_driver.py:321-347 | a reference that locates an element switches to that element, any other to the frame of that name; True iff the switch succeeds |
| `SeleniumDriver.SwitchToDefaultContent` | selenium_framework/framework/core/selenium_driver.py:349-362 | True iff the switch succeeds |
| `SeleniumDriver.RefreshPage` | selenium_framework/framework/core/selenium_driver.py:373-381 | True iff the refresh succeeds |
| `SeleniumDriver.GoBack` | selenium_framework/framework/core/selenium_driver.py:383-391 | True iff going back succeeds |
| `SeleniumDriver.GoForward` | selenium_framework/framework/core/selenium_driver.py:393-401 | True iff going forward succeeds |
| `SeleniumDriver.Launched` | selenium_framework/framework/core/selenium_driver.py:42-109 | a browser is launched only when its lower-cased name is chrome, firefox or edge |
| `SeleniumDriver.DriverSet` | selenium_framework/framework/core/selenium_driver.py:42-109 | a started browser leaves a driver set; a driver is set only for those three browsers, and one set without a start was left by the failed launch |
| `SeleniumLogger.Truncate` | selenium_framework/framework/utils/logger.py:154-156 | at most `limit` characters; unchanged when short enough, otherwise the first `limit - 3` characters and "..." |
| `SeleniumLogger.DisplayLocator` | selenium_framework/framework/utils/logger.py:155 | locators are shown in at most 50 characters |
| `SeleniumLogger.DisplayValue` | selenium_framework/framework/utils/logger.py:156 | values are shown in at most 30 characters |
| `SeleniumLogger.TruncateIdempotent` | selenium_framework/framework/utils/logger.py:154-156 | shortening twice is the same as shortening once |
| `SeleniumLogger.KeywordLines` | selenium_framework/framework/utils/logger.py:143-165 | the step and field lines always, plus one line each for a non-empty locator and value |
| `SeleniumLogger.LocatorLineIffLocator` | selenium_framework/framework/utils/logger.py:161-162 | a Locator line appears iff the locator is non-empty, and it shows the shortened locator |
| `SeleniumLogger.Logger.constructor` | selenium_framework/framework/utils/logger.py:20-25 | a new instance is not yet initialised |
| `SeleniumLogger.Logger.Init` | selenium_framework/framework/utils/logger.py:27-69 | the handlers are set up on the first call only |
| `SeleniumLogger.LoggerClass.constructor` | selenium_framework/framework/utils/logger.py:18 | no instance exists yet |
| `SeleniumLogger.LoggerClass.Create` | selenium_framework/framework/utils/logger.py:20-69 | every call gives the same instance, set up exactly once |
| `SeleniumReport.CountPass` | selenium_framework/framework/utils/report_generator.py:63 | at most the number of results |
| `SeleniumReport.Summarize` | selenium_framework/framework/utils/report_generator.py:62-64 | passed and failed add up to the total, the number of results |
| `SeleniumReport.PassRate` | selenium_framework/framework/utils/report_generator.py:65 | 0 when there are no results |
| `SeleniumReport.Duration` | selenium_framework/framework/utils/report_generator.py:67-72 | a duration iff both the start and the end were marked |
| `SeleniumReport.RowClass` | selenium_framework/framework/utils/report_generator.py:117 | the row class is "pass" iff the status is "PASS" |
| `SeleniumReport.CountPassAppend` | selenium_framework/framework/utils/report_generator.py:63 | counting over two lists of results adds up |
| `SeleniumReport.NoFailuresIffAllPass` | selenium_framework/framework/utils/report_generator.py:62-64 | no failed results iff every status is "PASS" |
| `SeleniumReport.PassRateBounds` | selenium_framework/framework/utils/report_generator.py:65 | the pass rate is between 0 and 100 |
| `SeleniumReport.ReportGenerator.constructor` | selenium_framework/framework/utils/report_generator.py:15-20 | no results and neither end marked |
| `SeleniumReport.ReportGenerator.StartExecution` | selenium_framework/framework/utils/report_generator.py:22-24 | marks the start and changes nothing else |
| `SeleniumReport.ReportGenerator.EndExecution` | selenium_framework/framework/utils/report_generator.py:26-28 | marks the end and changes nothing else |
| `SeleniumReport.ReportGenerator.AddTestResult` | selenium_framework/framework/utils/report_generator.py:30-51 | appends exactly one entry and leaves the earlier ones untouched |
| `Text.StripShape` | selenium_framework/framework/core/excel_reader.py:163 | `strip()` removes a whitespace prefix and suffix and leaves no whitespace at either end |
| `Text.StripIdempotent` | selenium_framework/framework/core/excel_reader.py:163 | stripping twice is stripping once |
| `Text.UpperIdempotent` | selenium_framework/framework/keywords/keyword_engine.py:111 | upper-casing twice is upper-casing once |
| `Text.StripUpperCommute` | framework/keywords/keyword_engine.py:51 | `upper().strip()` and `strip().upper()` give the same name |
| `Text.ContainsWindow` | selenium_framework/framework/keywords/keyword_engine.py:291 | Python's `in` on strings: some window of the text is the substring |
| `Text.Split` | selenium_framework/framework/core/excel_reader.py:163 | `split(",")` gives at least one part, none holding the separator |
| `Text.SplitJoin` | selenium_framework/framework/core/excel_reader.py:163 | joining the parts with the separator gives back the string |
| `Text.JoinSplit` | selenium_framework/framework/core/excel_reader.py:163 | splitting parts joined by a separator they do not hold gives back the parts |
| `Text.SplitOnce` | selenium_behave_framework/keywords/keyword_engine.py:662 | `split(",", 1)`: one part iff the separator is absent, otherwise the text before its first occurrence and the rest |
| `Text.SplitOnceJoined` | selenium_behave_framework/keywords/keyword_engine.py:667 | splitting once undoes joining two parts at a separator the first does not hold |
| `Text.ParseInt` | selenium_framework/framework/keywords/keyword_engine.py:214 | `int(value)` on a digit string is its decimal value |
| `Text.ReprQuote` | selenium_framework/framework/keywords/keyword_engine.py:349 | the quote `repr` chooses is `"` exactly when the text holds a `'` and no `"`, otherwise `'` |
| `Text.ReprChar` | selenium_framework/framework/keywords/keyword_engine.py:349 | every character is written as at least one; its body is the escape table of `repr` (the chosen quote and the backslash get a backslash, tab, newline and carriage return are `\t`, `\n`, `\r`, other unprintable characters up to U+00FF are `\xhh`), and `UnescapeChar` proves each entry reversible |
| `Text.ReprBody` | selenium_framework/framework/keywords/keyword_engine.py:349 | each character of the text is written, through `ReprChar`, as at least one character of `repr` |
| `Text.Repr` | selenium_framework/framework/keywords/keyword_engine.py:349 | `repr` of a text is at least two characters longer than it and starts and ends with the chosen quote |
| `Text.UnescapeChar` | selenium_framework/framework/keywords/keyword_engine.py:349 | reading back (`Unescape`, how a Python literal is read) the written form of one character gives that character, for either quote |
| `Text.ReprBodyUnescapes` | selenium_framework/framework/keywords/keyword_engine.py:349 | `repr` loses nothing: reading its escapes back gives the text |
| `Text.ReprBodyPlain` | selenium_framework/framework/keywords/keyword_engine.py:349 | printable characters other than the backslash and the quote are written as they are |
| `Text.ReprPlain` | selenium_framework/framework/keywords/keyword_engine.py:349 | a text of such characters with no quote of either kind is written between `'` |
| `Text.IntError` | selenium_framework/framework/keywords/keyword_engine.py:349 | the `int()` ValueError is "invalid literal for int() with base 10: " followed by `repr` of the text, whole when it has at most 200 characters and its first 200 otherwise |
| `Text.ReprDoubleQuoted` | framework/keywords/keyword_engine.py:344 | a text holding a `'` and no `"`, with no backslash or unprintable character, is written between `"` |
| `Text.ReprDoubleQuotesExample` | framework/keywords/keyword_engine.py:344 | `repr("it's")` is `"it's"`, in double quotes, so that is how `int("it's")` reports it |
| `Text.ReprSingleQuotesExample` | framework/keywords/keyword_engine.py:344 | `repr("ten")` is `'ten'`, in single quotes |
| `Text.NatToString` | selenium_framework/framework/keywords/keyword_engine.py:546 | `str(n)` is all digits and reads back as `n` |
| `Text.NonEmptyComplete` | selenium_framework/framework/core/excel_reader.py:163 | the `if name.strip()` filter keeps every non-empty name |
| `Text.NonEmptySound` | selenium_framework/framework/core/excel_reader.py:163 | and keeps nothing that was not there |
| `Text.CommaNamesClean` | selenium_behave_framework/keywords/keyword_executor.py:241 | every screen name read from a flow is non-empty, trimmed and free of commas |
| `Text.Strip` | selenium_framework/framework/core/excel_reader.py:163 | `strip()` never lengthens a string |
| `Text.Upper` | selenium_framework/framework/keywords/keyword_engine.py:111 | `upper()` keeps the length |
| `Text.Lower` | selenium_behave_framework/utils/excel_reader.py:203 | `lower()` keeps the length |
| `Text.Contains` | selenium_framework/framework/keywords/keyword_engine.py:291 | a substring is no longer than the text holding it |

## Left out

- Browser automation (Selenium WebDriver, WebDriverWait polling, ActionChains, Playwright page calls, JavaScript, screenshots) is not modelled. Each call is a parameter that answers with a value or an error. The model states what each variant does with the answer, not what the browser does.
- Browser lifecycle wrappers (`framework/core/browser_manager.py` beyond its guards, the Behave `DriverFactory` and its class-level driver, the wait helper) are not modelled. Launch and quit outcomes are inputs. `_teardown_driver` is modelled as clearing the executor's driver and engine; the quit call and the errors it swallows are not.
- openpyxl is not modelled: loading, saving, closing, and the empty cells it creates when a cell is read past the end of a row. A cell is `None` or its text. Numeric and boolean cells are represented by the text `str()` gives them, so a numeric 0 is not told apart from the string "0".
- Files are not read. A workbook file is an `Option<Workbook>` argument, and the reader's `file_path` and Config paths are not modelled.
- Report HTML and CSS text and the file writes are not modelled. Only the values placed in the page are: the counts, the pass rate, the duration, and the row numbers, statuses, classes and defaults. The per-step items of the Behave report (selenium_behave_framework/utils/report_generator.py:236-249) are not modelled. The `None` that the Selenium `generate_report` returns when writing the file fails is not modelled either.
- Log output is not modelled: message text, handler and colour configuration, and the Behave logger utility. The only logging modelled is the Selenium logger's truncation and line selection in `keyword_execution` and its singleton guard; `step_result` is only console formatting.
- Time is not modelled. Timestamps are integer arguments, durations are their differences rather than floats, and `time.sleep` is an oracle. "wait N seconds" parses a float in the source; whether it parses is an answer of the page parameter.
- Floating point is replaced by reals. Pass rates are computed on reals: they are exact, where the source rounds.
- `eval` in `ASSERT_TRUE` / `ASSERT_FALSE` of the Behave engine is an answer of the session parameter, because the source evaluates arbitrary Python.
- Python `assert` statements in the Behave `ASSERT_EQUALS` and `ASSERT_CONTAINS` keywords are modelled as always enabled, as they are without `-O`.
- Python's `upper()`, `lower()` and `isdigit()` are modelled on ASCII letters and digits only. `strip()` uses the exact `str.isspace` set of the characters modelled.
- Faults are modelled by their message strings; in the Behave engine a fault is a `Fault` value whose `Message` is that string. The class of a raised exception is not modelled. Python's own error texts (the `TypeError` of a call that does not bind, the `AttributeError`s, the unpacking `ValueError`) are worded as CPython 3.10 to 3.13 word them; other versions word some of them differently. When a Behave handler gets a text where it expects a locator, it raises whatever the WebDriver raises on that text, and the model takes that message from the page's `unpacked` parameter. The `ValueError` raised by `int()` is worded as CPython words it, with `repr` of the text cut after 200 characters. A keyword cell is assumed to hold a string (`keyword.strip()` on a `None` raises `AttributeError` in the source).
- The Behave `Environments` class-level dictionary is the `registry` field of one `Environments` object. Sharing between independent callers of the class is not modelled.
- The Behave executor's `generate_report` and `_print_summary` are modelled only through the counts they print. `SummaryAgreesWithReport` ties those counts to the report summary. The pass rate and the log text are not modelled.
- `cleanup` of the Selenium and Playwright executors and `close_workbook` of their readers are not modelled. They only release the browser and openpyxl resources.
- CLI entry points, sample-data scripts, page objects and Behave step files of the demo site, and config modules are not modelled.
- Text.Repr: characters up to U+00FF are escaped as CPython escapes them; characters above U+00FF are written as they are, while CPython writes those its Unicode database calls unprintable (format characters, separators, unassigned code points) as `\uXXXX` or `\UXXXXXXXX`.
- Text.ParseInt: the contract states only the plain-digit case. The body also accepts surrounding whitespace and a sign; underscores in integer literals are not accepted. CPython 3.11 and later refuse texts of more than 4300 digits, which the model parses.
- SeleniumKeywords.SelectHandler: its own contract states only the missing-locator case; `SelectOrder` states the order of the three strategies and the outcome.
