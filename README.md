# go-ext-cover: function-level coverage from a statement profile

go-ext-cover reads a Go statement-coverage profile and writes a four-field
report: `lineMissed`, `lineCovered`, `methodMissed`, `methodCovered`. Line
coverage is a sum over the profile's blocks. Method coverage comes from a
matcher. For each function declared in a profiled file, the matcher adds up
the executed statements of the blocks that overlap the function. The
function counts as covered when that sum is positive.

This project models that core in Dafny:

- `Profiles` (profiles.dfy): the parsed profile records (`ProfileBlock`, `Profile`), source positions and their lexicographic order. It also defines the sortedness that the profile loader guarantees.
- `LineCoverage` (line_coverage.dfy): `getOverallCoverage` as a method with two nested accumulator loops. It is proved equal to the reference sums `TotalStmts` and `CoveredStmts`. Lemmas then relate those sums to each other.
- `Matcher` (matcher.dfy): `FuncExtent.coverage` as a method of the `FuncExtent` datatype. It is a `while` loop with the source's `break` and `continue`. It is proved to return the executed statements of the overlapping blocks before the first block past the function's end. On sorted input it returns the plain filtered sum over all blocks. Lemmas cover each boundary rule (strict or non-strict, with equality at both ends), the bounds, and the "covered iff an executed overlapping block exists" equivalence.
- `FuncFinder` (func_finder.dfy): `findFuncs` with the `FuncVisitor` class. Its `funcs` field grows as the visitor walks a given sequence of syntax nodes.
- `FunctionInfos` (function_infos.dfy): `getFunctionInfos`. Locating a file (`findFile`) and parsing it are collaborators, passed in as functions that may fail. There is one record per extent per profile, in profile order and then extent order. The first failure aborts the pass.
- `Report` (report.dfy): the method-count loop and the action that builds the `Coverage` record.
- `Scenario` and `ScenarioReport` (scenario.dfy): the fixture program testData/main.go run through the model. Its five functions are at lines 9-11, 13-20, 22-25, 27-31 and 33-34. `init` and `getSomeField` are executed; `main`, `setSomeFiled` and the empty `someFunction` are not. The whole pass gives 3 of 8 statements and 2 of 5 functions covered. The block columns were worked out from the fixture's source text: a body with statements starts its block at its opening brace, an empty body one column past it, and every block ends one column past the closing brace. They are not taken from a recorded profile.

Integers are unbounded. `findFile`, parsing of the source file, go/token position computation and `ast.Walk` are function parameters or given inputs.

Two properties hold only under conditions:

- In the code, a function is covered when its matched sum is positive. That is the same as "some executed block with at least one statement overlaps the function" only when statement numbers are non-negative and the blocks are sorted. `Matcher.CoveredIffExecutedOverlap` proves the equivalence under exactly those conditions.
- Without sorting, the scan's result is the sum over the prefix before the first past-the-end block. `Matcher.UnsortedBlocksUndercount` shows such a case.

## Model

| member | source | states |
|---|---|---|
| `LineCoverage.GetOverallCoverage` | go_coverage.go:126-137 | total is the sum of NumStmt over every block of every profile. Covered is the same sum over blocks with Count > 0. With non-negative NumStmt, 0 <= covered <= total. total - covered equals the statements of the unexecuted blocks. |
| `LineCoverage.LineSplit` | go_coverage.go:129-133 | A profile's covered count is the statement total of its executed blocks. The executed and unexecuted blocks' totals add up to the profile's total. Unexecuted blocks add nothing to covered. |
| `LineCoverage.CoveredStmtsOfBounds` | go_coverage.go:129-133 | With non-negative NumStmt, one profile's covered count lies between 0 and its total. |
| `LineCoverage.CoveredAtMostTotal` | go_coverage.go:126-137 | With non-negative NumStmt, 0 <= covered <= total over all profiles. |
| `LineCoverage.MissedIsUnexecutedTotal` | go_coverage.go:65-68 | LineMissed = total - covered is exactly the statement count of the blocks with Count <= 0. |
| `LineCoverage.TotalsAppend` | go_coverage.go:128-135 | Totals over a concatenation of profile lists are the sums of the parts, so per-group partial aggregates merge. |
| `LineCoverage.StmtsOfAppend` | go_coverage.go:129-134 | Statement sums over concatenated block sequences add up. |
| `Matcher.FuncExtent.Coverage` | go_coverage.go:232-251 | Returns the executed statements of the overlapping blocks that come before the first block past the function's end. On blocks sorted by start it returns the filtered sum over all blocks. With non-negative NumStmt it lies between 0 and the profile's covered count. |
| `Matcher.ScanEnd` | go_coverage.go:237-241 | The scan stops at the first block starting at or past the function's end: no earlier block is past the end, and the block at the stop index is. It stops at the block count when no block is past the end. |
| `Matcher.BoundaryTestsAreLexicographic` | go_coverage.go:238-245 | "Past the end" means (StartLine, StartCol) >= (endLine, endCol). "Before the start" means (EndLine, EndCol) <= (startLine, startCol). Equality falls on the excluding side in both. |
| `Matcher.OverlapSumAppend` | go_coverage.go:237-249 | The reference overlap sum of concatenated blocks is the sum of the parts. |
| `Matcher.OverlapSumAllPastEnd` | go_coverage.go:238-241 | Blocks that all lie past the function's end contribute nothing. |
| `Matcher.ScanSoundWhenSorted` | go_coverage.go:236-241 | On blocks sorted by start, the early-break result equals the plain filtered sum over every overlapping block with Count > 0. |
| `Matcher.OverlapSumBounds` | go_coverage.go:246-248 | With non-negative NumStmt, the function's overlap sum lies between 0 and the profile's covered count. |
| `Matcher.ScanResultBounds` | go_coverage.go:235-250 | With non-negative NumStmt, the matcher's result lies between 0 and the profile's covered count, sorted or not. |
| `Matcher.ScanResultCons` | go_coverage.go:237-249 | One step of the scan: a first block past the end gives 0. Any other first block adds its contribution, and the scan continues on the rest. |
| `Matcher.ScanResultAppend` | go_coverage.go:237-249 | If no block in a run is past the end, the run is summed in full and the scan continues after it. |
| `Matcher.ScanResultStops` | go_coverage.go:238-241 | Once a block of a prefix is past the end, blocks appended after the prefix change nothing. |
| `Matcher.ScanIgnoresInertBlock` | go_coverage.go:242-248 | A block that does not stop the scan and contributes 0 can be removed without changing the result. |
| `Matcher.ZeroCountBlockIgnored` | go_coverage.go:246-248 | A block with Count <= 0 that does not stop the scan never changes a function's result. |
| `Matcher.BeforeStartBlockIgnored` | go_coverage.go:242-245 | A block ending at or before the function's start (equality included) that does not stop the scan never changes the result. |
| `Matcher.PastEndBlockStopsScan` | go_coverage.go:238-241 | Once the scan meets a block starting at or after the function's end (equality included), no later block contributes. |
| `Matcher.OverlappingBlockCounted` | go_coverage.go:242-248 | A reached block that overlaps the function, even partially, adds its NumStmt exactly when Count > 0. |
| `Matcher.OverlapSumPositiveIff` | go_coverage.go:246-248 | With non-negative NumStmt, the overlap sum is positive iff some overlapping block has Count > 0 and NumStmt > 0. |
| `Matcher.CoveredIffExecutedOverlap` | go_coverage.go:236-248 | On sorted blocks with non-negative NumStmt, the matcher's result is positive iff some executed, non-empty block overlaps the function. |
| `Matcher.UnsortedBlocksUndercount` | go_coverage.go:236-241 | On an unsorted block sequence the early break can hide an executed overlapping block: there the result is 0 while the filtered sum is 2. |
| `FuncFinder.FuncVisitor.constructor` | go_coverage.go:187-191 | A new visitor is bound to the file name and has collected nothing. |
| `FuncFinder.FuncVisitor.Visit` | go_coverage.go:214-229 | A function-declaration node appends its extent to funcs: its name and the line and column of its Pos() and End(). Any other node leaves funcs unchanged. |
| `FuncFinder.FindFuncs` | go_coverage.go:181-194 | Returns the extents of the declaration nodes in walk order. An extent is returned iff some declaration node has it. |
| `FuncFinder.FuncDeclsMembers` | go_coverage.go:214-228 | An extent is collected iff some function-declaration node of the walk has it. |
| `FuncFinder.FuncDeclsAppend` | go_coverage.go:192 | Collecting over consecutive parts of the walk concatenates the results, so extents keep walk order. |
| `FunctionInfos.GetFunctionInfos` | go_coverage.go:139-163 | Returns the reference result AllInfos: each profile's records in profile order, or the first failure of findFile or findFuncs. |
| `FunctionInfos.AllInfosErrPersists` | go_coverage.go:143-150 | A failure on a prefix of the profiles is the result of the whole pass. No partial list is returned. |
| `FunctionInfos.ProfileInfosAt` | go_coverage.go:152-160 | A profile yields exactly one record per extent, in extent order. The k-th record has the resolved file, the k-th extent's name and lines, and isCovered = (its coverage > 0). |
| `FunctionInfos.AllInfosFailsIff` | go_coverage.go:141-150 | The pass fails iff some profile's file cannot be located or parsed. It then fails with that error of the first such profile. |
| `FunctionInfos.AllInfosLength` | go_coverage.go:141-161 | On success the records number exactly the extents of all profiles. |
| `FunctionInfos.AllInfosOkResolves` | go_coverage.go:141-150 | When the whole pass succeeds, every profile's file was found and parsed. |
| `FunctionInfos.AllInfosIsConcat` | go_coverage.go:141-161 | On success, the result is the records of each profile, joined in profile order. |
| `FunctionInfos.PerFileLength` | go_coverage.go:152-160 | The joined per-profile records number exactly the extents found in those profiles' files. |
| `FunctionInfos.FlattenAt` | go_coverage.go:152-160 | After the appends, element k of list i sits right after all elements of the earlier lists. |
| `FunctionInfos.AllInfosAt` | go_coverage.go:141-160 | On success, the record for extent k of profile i sits right after the records of earlier profiles and earlier extents. It is that extent's record, computed with profile i's own blocks. |
| `Report.CountMethods` | go_coverage.go:75-84 | methodCovered is the number of records marked covered and methodMissed the number not covered. Together they make up the number of records. |
| `Report.BuildCoverage` | go_coverage.go:59-87 | Fails iff getFunctionInfos fails, with its error. Otherwise, lineCovered is the executed-statement total and lineMissed the unexecuted-statement total; together they are the total. methodCovered and methodMissed count the records by isCovered and together give the number of extents. |
| `Report.CountsPartition` | go_coverage.go:75-84 | methodCovered + methodMissed equals the number of records. |
| `Report.NoneCoveredIff` | go_coverage.go:78-84 | methodCovered is 0 iff no record is marked covered. |
| `Report.AllCoveredIff` | go_coverage.go:78-84 | methodMissed is 0 iff every record is marked covered. |
| `Report.CountsAppend` | go_coverage.go:78-84 | Counts over concatenated record lists add up. |
| `Scenario.FixtureInit` | testData/main.go:9-11 | `init` is credited with 1 statement, the one of its executed block. |
| `Scenario.FixtureMain` | testData/main.go:13-20 | `main` is credited with nothing: init's block ends before it and its own block was not executed. |
| `Scenario.FixtureGetSomeField` | testData/main.go:22-25 | `getSomeField` is credited with the 2 statements of its executed block. |
| `Scenario.FixtureSetSomeFiled` | testData/main.go:27-31 | `setSomeFiled` is credited with nothing. |
| `Scenario.FixtureSomeFunction` | testData/main.go:33-34 | The empty `someFunction` is credited with nothing and so is reported as not covered. |
| `Scenario.FixtureLines` | testData/main.go:9-34 | The fixture's blocks hold 8 statements, 3 of them executed. |
| `ScenarioReport.FixtureFuncs` | testData/main.go:9-34 | The visitor keeps the fixture's five declarations in source order and drops the other nodes. |
| `ScenarioReport.FixtureProfileInfos` | testData/main.go:9-34 | The five fixture extents, matched against the fixture profile, give the expected five records in source order. |
| `ScenarioReport.FixtureInfos` | testData/main.go:9-34 | The pass over the fixture yields five records. Only init and getSomeField are marked covered. |
| `ScenarioReport.FixtureCounts` | testData/main.go:9-34 | Two of the fixture's five functions are counted covered and three missed. |
| `ScenarioReport.FixtureReport` | testData/main.go:9-34 | The whole action on the fixture succeeds with 3 of 8 statements covered (5 missed) and 2 of 5 functions covered (3 missed). |

## Left out

- The command-line wiring (`main`, the urfave/cli flags, `getOrDefault`, `log.Fatal`): it is flag handling, not logic.
- `createDir`, the JSON encoding and `ioutil.WriteFile` of the report: filesystem I/O and serialisation. `Report.BuildCoverage` stops at the finished `Coverage` value.
- `cover.ParseProfiles`: profile text parsing in an external library. Its output is taken as the input sequence of profiles, and its failure path is not modelled. The sortedness it delivers is the predicate `SortedByStart`.
- `findFile`: path resolution through `go/build`. It is a function parameter that returns a path or an error.
- `parser.ParseFile`, go/token position computation and the traversal order of `ast.Walk`. Parsing is a function parameter returning the nodes in the order the walk visits them, or an error. A declaration node carries its positions directly.
- FuncFinder.FuncVisitor.Visit: does not model the returned visitor, which only tells `ast.Walk` to descend into children. The walk is the given node sequence.
- LineCoverage.GetOverallCoverage: does not model 64-bit wrap-around of the `int64` accumulators, because the integers are unbounded.
- Matcher.FuncExtent.Coverage: does not model 64-bit wrap-around of the `int64` sum, because the integers are unbounded.
- Report.CountMethods: does not model 64-bit wrap-around of the `int64` counters, because the integers are unbounded.
- The `error` result of `getOverallCoverage`: it is always nil, so the model returns no error there.
