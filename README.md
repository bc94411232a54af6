# Structured error handling of pgBackRest, modelled in Dafny

pgBackRest's C code handles errors with macros: `TRY_BEGIN`, `CATCH(T)`,
`CATCH_ANY`, `CATCH_FATAL`, `FINALLY`, `TRY_END`, `THROW`, `RETHROW`,
`THROW_CODE`, `THROW_ON_SYS_ERROR` and `THROW_SYS_ERROR`. They run over one
global error context, which holds:
- the try counter `tryTotal`;
- a fixed `tryList` of per-region phases (errorStateTry, errorStateCatch,
  errorStateEnd);
- the active error: its type, a fixed-size message buffer, and the file,
  function and line of the throw;
- a replaceable list of error handlers.

Error types are records with a code, a name, a fatal flag and a parent, and
they form a hierarchy. This project models that runtime as the module's test
program `test/src/module/common/errorTest.c` drives and asserts it, and
proves the test's assertions about the model.

The modules:
- `ErrorTypes` (registry.dfy):
  - the registry of error types, with `errorTypeExtends` (`Extends`) as the
    parent-chain walk;
  - a reference definition of ancestry (`Reaches`);
  - the throw-by-code lookup, with its fallback to UnknownError.
- `Messages` (messages.dfy):
  - silent truncation to the buffer;
  - `%d` formatting;
  - the `": [errno] description"` suffix of system-error throws.
- `TryStack` (trystack.dfy): the context as a value (`State`), and each
  runtime step on it as a function: entering a region (with the depth
  guard), throwing, testing a catch clause (with the handler calls), and
  leaving a region.
- `Regions` (regions.dfy) gives the macros their meaning.
  - Application code is a small statement language; `Observe` stands for
    the test's flags and assertions.
  - `Eval` runs a statement. The non-local jump of a throw is the `Raised`
    outcome.
- `Context` (context.dfy):
  - `ErrorContext` is the mutable context: `tryList` and the message buffer
    are arrays, and the counter, error and handler fields are updated in
    place.
  - Every state-changing method is proved to take exactly the step its
    `TryStack` function describes (`Store`, the buffer copy, is specified
    as the update of the message alone).
  - `Run` is proved to execute a statement as `Eval` says.
- `Propagation` (propagation.dfy) proves the general properties:
  - catch clauses are chosen first-match, in order;
  - a region without an error runs FINALLY in Try;
  - closing the outermost region clears the error;
  - the self-recursive function of the test runs exactly as a level-by-level
    reference definition (`GuardRun`).
- `ErrorTest` and `TestTexts` (errortest.dfy) model each block of the test
  program as a statement and prove what its assertions check. The registry
  is abstract: `TestRegistry` states only the relations the test relies on.
  `ExampleIsTestRegistry` shows that these relations can hold together.

## Model

| member | source | states |
|---|---|---|
| ErrorTypes.Extends | test/src/module/common/errorTest.c:77-80 | Definition of errorTypeExtends as the parent-chain walk; its meaning is stated by ExtendsIffReaches and ExtendsSelfIffRoot. |
| ErrorTypes.InstanceOf | test/src/module/common/errorTest.c:210-222 | Definition of errorInstanceOf: the type itself or a type it extends; used by CATCH(T) through TryStack.Matches. |
| ErrorTypes.ExtendsIffReaches | test/src/module/common/errorTest.c:77-80 | The errorTypeExtends walk answers true exactly when the ancestor is reached from the child by one or more parent links, in both directions. |
| ErrorTypes.ExtendsSelfIffRoot | test/src/module/common/errorTest.c:77-80 | A type extends itself exactly when it is its own parent: true for TestParent1Error, false for TestChildError. |
| ErrorTypes.ExtendsAbove | test/src/module/common/errorTest.c:77-80 | Every ancestor the walk accepts is registered at or above the child's parent. |
| ErrorTypes.ExtendsParent | test/src/module/common/errorTest.c:15-17 | A type extends its declared parent. |
| ErrorTypes.ExtendsTransitive | test/src/module/common/errorTest.c:78 | Ancestry is transitive, so a child extends its grandparent. |
| ErrorTypes.FindCode | test/src/module/common/errorTest.c:286-316 | The first registered position at or after the start whose code matches, with no earlier match; otherwise the end of the registry. |
| ErrorTypes.TypeFromCode | test/src/module/common/errorTest.c:286-316 | A registered code resolves to the first type carrying that code. An unregistered code resolves to UnknownError. |
| ErrorTypes.ErrorTypeFromCode | test/src/module/common/errorTest.c:286-316 | The scanning loop returns the same type as TypeFromCode. |
| Messages.Truncate | test/src/module/common/errorTest.c:172-175 | The buffer keeps the longest prefix of the message shorter than its capacity. A message that does not fit keeps exactly capacity - 1 characters, and no error is raised. |
| Messages.TruncateIdempotent | test/src/module/common/errorTest.c:192 | Storing a stored message again (THROW with errorMessage()) leaves it as it was. |
| Messages.DecimalRoundTrip | test/src/module/common/errorTest.c:298-303 | The decimal rendering `%d` prints reads back as the number. |
| Messages.FormatPlain | test/src/module/common/errorTest.c:324 | A format with no directive is copied unchanged. |
| Messages.FormatD | test/src/module/common/errorTest.c:298-303 | Definition of the `%d` formatting of the _FMT throws; its properties are FormatPlain, FormatPlainPrefix and FormatOneDirective. |
| Messages.FormatPlainPrefix | test/src/module/common/errorTest.c:298-303 | Plain text in front of a format is copied, and the rest is formatted with the same arguments. |
| Messages.SysErrorMessage | test/src/module/common/errorTest.c:328-409 | Definition of the message of a system-error throw; its shape is stated by SysErrorMessageShape. |
| Messages.FormatOneDirective | test/src/module/common/errorTest.c:298-303 | Text followed by one `%d` renders as the text and then the argument's digits. |
| Messages.SysErrorMessageShape | test/src/module/common/errorTest.c:328-349 | A system-error message starts with the composed text. It equals that text exactly when errno is 0. Otherwise `": ["`, errno's digits (which read back as errno) and `"] "` follow it. |
| TestTexts.Format1 | test/src/module/common/errorTest.c:298-303 | "message %d" with 1 renders as "message 1". |
| TestTexts.Format77 | test/src/module/common/errorTest.c:343-349 | "message %d" with 77 renders as "message 77". |
| TestTexts.MessageE2Big | test/src/module/common/errorTest.c:328-335 | errno 7 appends ": [7] " and the description to "message" and to "message 77". |
| TestTexts.MessageEio | test/src/module/common/errorTest.c:384-395 | errno 5 appends ": [5] " and the description to "message 1". |
| TryStack.Init | test/src/module/common/errorTest.c:69-72 | The initial context has no region open, no error and no handler. |
| TryStack.MarkUncaught | test/src/module/common/errorTest.c:206 | The jump into the innermost region keeps the context invariant. |
| TryStack.Raise | test/src/module/common/errorTest.c:119-123 | Throwing keeps the context invariant: the message fits the buffer and the error type is registered. |
| TryStack.TryBegin | test/src/module/common/errorTest.c:29-32 | Entering a region, or raising the guard's AssertError at ERROR_TRY_MAX, keeps the context invariant. |
| TryStack.CatchTest | test/src/module/common/errorTest.c:186-189 | Testing a catch clause keeps the context invariant. |
| TryStack.TryEnd | test/src/module/common/errorTest.c:104-109 | Leaving a region keeps the context invariant. |
| TryStack.TryBeginSteps | test/src/module/common/errorTest.c:29-32 | TRY_BEGIN opens a frame in Try one level deeper exactly when fewer than ERROR_TRY_MAX regions are open, keeping the error. Otherwise the depth stays, and AssertError with "too many nested try blocks" is active from the TRY_BEGIN site. |
| TryStack.CatchTestSteps | test/src/module/common/errorTest.c:186-219 | A clause takes the error exactly when the region has not caught it yet and the clause matches, which moves the region to End. Only the first test calls the handlers, each once and in order. Depth, error, message and handler list are kept. |
| TryStack.TryEndSteps | test/src/module/common/errorTest.c:224-227 | TRY_END pops one region. The error moves on exactly when that region did not catch it. Closing the last region clears the error, and otherwise the error is kept. |
| TryStack.Matches | test/src/module/common/errorTest.c:179-222 | Definition of when a clause takes an error: CATCH(T) a non-fatal instance of T, CATCH_ANY a non-fatal error, CATCH_FATAL a fatal one; how the clauses use it is stated by CatchTestSteps and Propagation.CatchesInOrder. |
| TryStack.HandlerSet | test/src/module/common/errorTest.c:138-142 | Definition of errorHandlerSet: the handler list is replaced; ErrorContext.HandlerSet and ErrorTest.MultipleCatchesRun state that exactly the given list is installed. |
| TryStack.Calls | test/src/module/common/errorTest.c:138-142 | One handler call per installed handler. |
| TryStack.CallsInOrder | test/src/module/common/errorTest.c:188-189 | The k-th call goes to the k-th installed handler, with the region's depth and the fatal flag. |
| Regions.Eval | test/src/module/common/errorTest.c:145-232 | Running any statement keeps the invariant and leaves tryTotal as it found it. Every region opened is closed, also when an error leaves it. |
| Regions.EvalRegion | test/src/module/common/errorTest.c:90-109 | A region keeps the invariant and returns to the depth it was opened at. |
| Regions.EvalCatches | test/src/module/common/errorTest.c:210-224 | Catch resolution keeps the invariant and the depth. |
| Regions.EvalFrames | test/src/module/common/errorTest.c:192-206 | A throw lands in the innermost open region. A statement run at depth d touches no frame below d and never the phase of frame d. It marks frame d uncaught exactly when it raises, or leaves the mark as it was. |
| Propagation.FirstMatch | test/src/module/common/errorTest.c:210-222 | The position of the first clause that takes the error, with none before it taking it. |
| Propagation.CatchesInOrder | test/src/module/common/errorTest.c:210-222 | The clauses are tried in order and the first match runs with the region in End and nothing uncaught. With no match, the context is unchanged and the error stays raised. |
| Propagation.CatchResolution | test/src/module/common/errorTest.c:179-192 | An arriving error calls the handlers once, with the depth and whether the first clause is CATCH_FATAL. Then the first matching clause runs. With no match, the error moves on. |
| Propagation.RegionWithoutError | test/src/module/common/errorTest.c:84-110 | When the body completes, FINALLY runs with the region in Try and nothing uncaught, and no catch clause runs. |
| Propagation.RaisedRegion | test/src/module/common/errorTest.c:147-224 | For any region, plain or recursive: when its protected code raises, the region is in Try and marked uncaught. It goes on with its clauses, then FINALLY, then TRY_END. |
| Propagation.RaisedBody | test/src/module/common/errorTest.c:147-224 | The same for a region whose body observes first, stated over the code after the observation (the shape of the nested regions of the test). |
| Propagation.TopLevelClears | test/src/module/common/errorTest.c:224-227 | A region opened at depth 0 that completes leaves no active error. |
| Propagation.TryEndKeeps | test/src/module/common/errorTest.c:194-199 | TRY_END keeps the message and the handlers. When the error moves on, it also keeps the error and marks the enclosing region uncaught. |
| Propagation.Recurse | test/src/module/common/errorTest.c:26-45 | testTryRecurse is one region whose body calls itself. |
| Propagation.GuardRun | test/src/module/common/errorTest.c:29-44 | The recursion always ends raised, with AssertError at the TRY_BEGIN site and the guard's message. It returns to the starting depth, marks that region uncaught, and leaves one handler call per skipped non-fatal clause. |
| Propagation.GuardStep | test/src/module/common/errorTest.c:36-44 | Once the deeper call raises a fatal error, CATCH(UnhandledError) does not take it, FINALLY runs, and TRY_END passes it on. |
| Propagation.RecurseIsGuardRun | test/src/module/common/errorTest.c:26-45 | The recursive function runs exactly as GuardRun, from any depth. |
| Propagation.GuardRunLength | test/src/module/common/errorTest.c:31 | The recursion adds two observations per level it enters. |
| Propagation.GuardRunEnters | test/src/module/common/errorTest.c:31-32 | The k-th entry of the body is at depth start + k, up to ERROR_TRY_MAX. |
| Propagation.GuardRunFinals | test/src/module/common/errorTest.c:40-43 | Each FINALLY runs, from ERROR_TRY_MAX down, after all the entries. |
| Context.ErrorContext.Abstract | test/src/module/common/errorTest.c:71 | The context's fields, read as a State, satisfy the invariant. |
| Context.ErrorContext.constructor | test/src/module/common/errorTest.c:69-72 | The new context is the initial state. |
| Context.ErrorContext.HandlerSet | test/src/module/common/errorTest.c:138-142 | errorHandlerSet replaces the handler list and changes nothing else. |
| Context.ErrorContext.Store | test/src/module/common/errorTest.c:172-175 | The buffer is overwritten with the truncated message and terminated. Nothing else changes. |
| Context.ErrorContext.MarkUncaught | test/src/module/common/errorTest.c:206 | It marks the innermost open region uncaught, as TryStack.MarkUncaught does. |
| Context.ErrorContext.Throw | test/src/module/common/errorTest.c:175 | It sets the error and its site, stores the message and jumps, as Raise does. |
| Context.ErrorContext.Rethrow | test/src/module/common/errorTest.c:206 | It forwards the active error and message unchanged to the enclosing region. |
| Context.ErrorContext.ThrowCode | test/src/module/common/errorTest.c:286-316 | It throws the type the code resolves to. |
| Context.ErrorContext.ThrowSys | test/src/module/common/errorTest.c:371-409 | It throws with the errno suffix. |
| Context.ErrorContext.ThrowOnSys | test/src/module/common/errorTest.c:323-329 | It throws with the errno suffix when the condition holds, and otherwise changes nothing. |
| Context.ErrorContext.TryBegin | test/src/module/common/errorTest.c:29-32 | It opens a frame in Try, or at ERROR_TRY_MAX throws AssertError "too many nested try blocks" from the TRY_BEGIN site. |
| Context.ErrorContext.CatchTest | test/src/module/common/errorTest.c:186-219 | The first test calls every handler and moves Try to Catch. A matching clause moves Catch to End. |
| Context.ErrorContext.TryEnd | test/src/module/common/errorTest.c:224-227 | It pops the frame and passes an uncaught error on, or clears the error at depth 0. |
| Context.ErrorContext.Run | test/src/module/common/errorTest.c:145-232 | Executing a statement over the arrays and fields gives exactly Eval's state, log and outcome. |
| Context.ErrorContext.RunRegion | test/src/module/common/errorTest.c:147-224 | Executing a region gives exactly EvalRegion's result. |
| Context.ErrorContext.RunCatches | test/src/module/common/errorTest.c:210-224 | Executing the clauses from i on gives exactly EvalCatches' result. |
| ErrorTest.ExampleIsTestRegistry | test/src/module/common/errorTest.c:15-17 | A registry with all the relations the test relies on exists (101 a root, 102 under 101, 200 under 102, ...). |
| ErrorTest.Hierarchy | test/src/module/common/errorTest.c:77-80 | Extends(TestParent1Error, TestParent1Error), Extends(TestChildError, TestParent1Error) and Extends(TestChildError, TestParent2Error) hold, and Extends(TestChildError, TestChildError) does not. |
| ErrorTest.NoErrorRegion | test/src/module/common/errorTest.c:84-110 | The body runs at depth 1, the catch never runs, and FINALLY runs once with the region in Try. The block ends at depth 0 with no error. |
| ErrorTest.CaughtOnce | test/src/module/common/errorTest.c:117-125 | A top-level region whose clause takes the body's error calls the handlers once. The clause sees the error and message in End, and the block completes with the error cleared. |
| ErrorTest.InternalThrowCaught | test/src/module/common/errorTest.c:113-126 | CATCH_ANY takes the FormatError thrown with file77/function88/99 and sees the message "message100". |
| ErrorTest.Level5 | test/src/module/common/errorTest.c:163-177 | At depth 5, the body runs, then FINALLY sees the region in Try and throws AssertError with the too-big message. |
| ErrorTest.Step4 | test/src/module/common/errorTest.c:159-184 | CATCH_ANY does not take the fatal AssertError. The handler is called with (4, not fatal) and the error moves on. |
| ErrorTest.Catch3 | test/src/module/common/errorTest.c:186-193 | CATCH_FATAL takes the AssertError after the handler call (3, fatal). Its THROW of FormatError replaces the error, keeps the message and leaves the region uncaught. |
| ErrorTest.Step3 | test/src/module/common/errorTest.c:155-199 | Depth 3, around any inner code that raises AssertError: FINALLY runs after the throw in the catch, and the FormatError moves on. |
| ErrorTest.Catch2 | test/src/module/common/errorTest.c:201-207 | CATCH_ANY takes the non-fatal error after the handler call (2, not fatal), and RETHROW passes the same error on. |
| ErrorTest.Step2 | test/src/module/common/errorTest.c:151-208 | Depth 2, around any inner code that raises FormatError: RETHROW forwards it to depth 1. |
| ErrorTest.Catch1 | test/src/module/common/errorTest.c:210-223 | CATCH(UnhandledError) is skipped and CATCH(RuntimeError) takes the FormatError. The handler is called with (1, not fatal) and the clause sees the region in End. |
| ErrorTest.Step1 | test/src/module/common/errorTest.c:147-226 | Depth 1, around any inner code that raises FormatError: the block completes with the error cleared. |
| ErrorTest.Level4 | test/src/module/common/errorTest.c:159-184 | Depths 4 and 5 together end raised with the AssertError. |
| ErrorTest.Level3 | test/src/module/common/errorTest.c:155-199 | Depths 3 to 5 together end raised with the FormatError. |
| ErrorTest.Level2 | test/src/module/common/errorTest.c:151-208 | Depths 2 to 5 together end raised with the FormatError. |
| ErrorTest.Level1 | test/src/module/common/errorTest.c:145-226 | The five nested regions complete with no error, with the log and handler calls of the whole block. |
| ErrorTest.Log1Shape | test/src/module/common/errorTest.c:216-220 | The block shows ten observations. The last is CATCH(RuntimeError) at depth 1, in End, after the handler call (1, not fatal), with a message of exactly buffer size - 1 characters. |
| ErrorTest.MultipleCatchesRun | test/src/module/common/errorTest.c:129-233 | errorHandlerSet installs [h]. The error passes the five regions with the handler called at depths 4, 3 (fatal), 2 and 1. The block ends at depth 0 with the error cleared. |
| ErrorTest.TestTryRecurse | test/src/module/common/errorTest.c:26-45 | The recursive function is a well-formed region. |
| ErrorTest.TooDeepRun | test/src/module/common/errorTest.c:242-273 | After the recursion, CATCH_FATAL at depth 1 sees AssertError from testTryRecurse line 29 with the guard's message. FINALLY follows, and the block ends at depth 0 with no error. |
| ErrorTest.LayoutOfRun | test/src/module/common/errorTest.c:236-279 | The recursion's observations, followed by the catch and FINALLY, have the layout the test checks. |
| ErrorTest.GuardMessageKept | test/src/module/common/errorTest.c:254 | The guard's message fits the buffer whole. |
| ErrorTest.TooDeepRecursion | test/src/module/common/errorTest.c:236-279 | The recursive function is entered exactly ERROR_TRY_MAX - 1 times, the k-th entry at depth k + 1. Each of its FINALLY blocks runs and its CATCH never does. CATCH_FATAL sees AssertError "too many nested try blocks" from testTryRecurse line 29, then FINALLY runs. The block ends at depth 0 with no error. |
| ErrorTest.ThrowCodeFatal | test/src/module/common/errorTest.c:284-293 | THROW_CODE(25) is taken by CATCH_FATAL, with code 25 and message "message". |
| ErrorTest.ThrowCodeFormatted | test/src/module/common/errorTest.c:296-305 | THROW_CODE_FMT(122, "message %d", 1) is taken by CATCH_ANY, with code 122 and message "message 1". |
| ErrorTest.ThrowCodeUnknown | test/src/module/common/errorTest.c:308-317 | THROW_CODE(777) throws UnknownError, with the message unchanged. |
| ErrorTest.SysConditionFalse | test/src/module/common/errorTest.c:323-324 | THROW_ON_SYS_ERROR and its _FMT form do nothing when the condition is false. |
| ErrorTest.SysCaught | test/src/module/common/errorTest.c:326-337 | A system-error AssertError is taken by CATCH_FATAL with the composed message and its errno suffix. |
| ErrorTest.ComposedSys | test/src/module/common/errorTest.c:343-409 | The formatted messages of the system-error blocks, with and without the suffix. |
| ErrorTest.SysOnErrno | test/src/module/common/errorTest.c:326-337 | With errno 7, the caught message is "message: [7] " followed by the description. |
| ErrorTest.SysOnFormattedNoErrno | test/src/module/common/errorTest.c:340-351 | With errno 0, the caught message is "message 77". |
| ErrorTest.SysOnFormattedErrno | test/src/module/common/errorTest.c:354-365 | With errno 7, the formatted message gets ": [7] " and the description. |
| ErrorTest.SysNoErrno | test/src/module/common/errorTest.c:368-379 | THROW_SYS_ERROR with errno 0 leaves "message" bare. |
| ErrorTest.SysFormattedErrno | test/src/module/common/errorTest.c:382-397 | With errno 5, the caught message is "message 1: [5] " followed by the C library's description, whichever it is. |
| ErrorTest.SysFormattedNoErrno | test/src/module/common/errorTest.c:400-411 | THROW_SYS_ERROR_FMT with errno 0 leaves "message 1" bare. |
| ErrorTest.UncaughtExits | test/src/module/common/errorTest.c:418-425 | An error of any registered type thrown with no region open ends the program with UnhandledError's code, whatever the thrown type's own code. |
| ErrorTest.UncaughtChildExits | test/src/module/common/errorTest.c:415-429 | The test's TestChildError, whose code is 200, thrown with no region open ends the program with UnhandledError's code. |

## Left out

- The runtime's own source (common/error.c and common/error.h) is not part of this model. The behaviour follows the test's assertions. The catch rules are the model's choice: CATCH(T) takes non-fatal instances of T, CATCH_ANY takes non-fatal errors, and CATCH_FATAL takes fatal ones. errorTest.c never offers a non-fatal error to CATCH_FATAL, nor a fatal instance of T to CATCH(T), so the test does not settle those two cases. The handlers are called when an error first reaches a region's catch clauses.
- The exit status of an uncaught error is UnhandledError's code, not the thrown type's code, as errorTest.c:418-420 expects of the child process (`.expectedExitStatus = UnhandledError.code`).
- setjmp/longjmp are not modelled as jumps. A throw is the `Raised` outcome of `Eval`, which skips to the innermost region's catch resolution.
- There is no forked child process and no process exit. An uncaught error is the terminal value `Exited(status)` of `Terminate`.
- The error's stack trace is not modelled, because its contents are opaque and the test only checks that it is present.
- The absolute path prefix (TEST_PGB_PATH) of the reported file name is left out. The model records the path relative to the repository.
- strerror is not modelled. The errno and its description are a parameter (`OsError`) of each system-error throw, since the text differs between C libraries.
- printf-style formatting is modelled only for `%d`, the only directive the test uses.
- The printing of messages to stdout and stderr is left out.
- Error handlers are identified by their position in the installed list. The test handler's recording of its last call is the `lastCall` of each observation.
- The test's flags (tryDone, catchDone, finallyDone, testTryRecurseTotal, and so on) are not variables. They are `Observe` points in the log, and each flag is stated as the presence or absence of its point.
- The too-big message of the test is an array of 'A's without a terminator. The model gives it exactly buffer size + 128 characters.
- The numeric codes of AssertError, FormatError, RuntimeError, UnhandledError and UnknownError are abstract, because the test does not fix them. `TestRegistry` states only the relations the test relies on.
- The accessors ErrorContext.TryDepth, ErrorType, ErrorCode, ErrorName, ErrorMessage, ErrorFileName, ErrorFunctionName and ErrorFileLine read one field each and carry no contract of their own.
- ErrorTest.SysOnErrno: assumes the errno description is at most 32 characters, so that the whole message fits the buffer.
- ErrorTest.SysOnFormattedErrno: assumes the errno description is at most 32 characters, so that the whole message fits the buffer.
- ErrorTest.SysFormattedErrno: assumes the errno description is at most 32 characters, so that the whole message fits the buffer.
- The registry holds the test's own types (codes 101, 102, 200) together with the runtime's, so ErrorTypes.TypeFromCode and ErrorContext.ThrowCode would resolve, say, code 101 to TestParent1Error. Whether the runtime's code table includes locally declared types is a question the test never exercises; the model does not settle it.
- test/src/module/common/execTest.c is not part of this model. It is child-process execution over pipes, signals and timeouts.
- Concurrency is left out: the error context is per thread, and the test is single-threaded.
