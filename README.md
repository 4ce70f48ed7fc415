# react-native-fabric-crashlytics: verified model of the exception hook

The library installs a global uncaught-exception hook in a React Native
application. `init(smap)` does nothing in development mode (`__DEV__`).
Otherwise it does three things:

- It picks a mapper: `nomap` (always the empty location `{}`) when no source
  map is given, or a lookup of the row's generated line and column in a
  source-map consumer.
- It reads the current global handler.
- It replaces that handler with a wrapper.

When the wrapper fires with `(e, isFatal)`, it does two things. First, it
reports `e.message` twice (as name and as message) with the stack frames,
each translated through the mapper. Second, it hands the error back to the
handler it replaced: not at all if there was none, immediately on iOS, and
once after 500 ms on every other platform.

The model has three files.

- `wrappers.dfy`: `Option`. JavaScript's `undefined`/`null` become `None`.
- `frames.dfy` (module `Frames`): the per-row translation. It uses JavaScript
  truthiness explicitly: `TruthyStr` means a non-empty string, `TruthyNum` a
  non-zero number, and `OrStr`/`OrNum` implement `||`. This means a resolved
  line or column of `0` counts as absent, exactly as in the code.
- `handlers.dfy` (module `ErrorHandling`): the handler slot and the wrapper.
  - `ErrorUtils` is a class holding the single global `slot`.
  - `Init` is `init`.
  - `Delegate` is the three-way delegation choice.
  - `Fire` is one firing of the wrapper. It returns the report it would send
    and the delegation action, as data.

Inputs from the environment are parameters: `dev` for `__DEV__`, `os` for
`Platform.OS`, `consumerFor` for building a source-map consumer and querying
`originalPositionFor`, and `extracted` for what the stack-trace extractor
delivers. `extracted` is `None` when extraction fails, and then no report is
made.

Two more methods are small client scenarios. `ProductionScenario`: no source
map, a host handler installed, an Android error "boom" with one frame.
`DevelopmentScenario`: development mode leaves the host handler in the slot.

The code keeps the zero-is-absent fallback, and so does the model. This has a
visible consequence, which `Frames.ZeroColumnDisagrees` exhibits. Source-map
columns count from 0. When a location resolves to column 0, the function name
says `...:0`, but `columnNumber` is the row's generated column.

## Model

| member | source | states |
|---|---|---|
| `Frames.OrStr` | index.js:36 | JavaScript's logical or on strings: the first operand when it is truthy, the second when it is falsy (also when both are falsy), and the result is truthy exactly when either operand is |
| `Frames.OrNum` | index.js:37-38 | the same for numbers: the first operand when truthy, otherwise the second; 0 and absence are falsy, so a resolved 0 gives the second operand |
| `Frames.SelectMapper` | index.js:8-29 | without a truthy source map the mapper is `nomap`: the empty location for every row. With one, each row's location is the consumer's lookup of the row's (lineNumber, columnNumber) and nothing else |
| `Frames.NoMap` | index.js:8-10 | `nomap` resolves nothing: a row translated through its location is reported with its own file, line and column, and with its label as function name |
| `Frames.Signature` | index.js:39 | the resolved function name starts with the rendered name followed by `@`, ends with `:` and the rendered column, and is never empty |
| `Frames.Label` | index.js:40 | the unresolved function name is the row's source label when truthy, otherwise `unknown_func`; never empty |
| `Frames.Translate` | index.js:34-41 | file name and function name come together from the location when its source is truthy (`Signature`) and from the row otherwise (`Label`); line and column are each the resolved or the row's value, truthy exactly when one of the two is; the function name is never empty |
| `Frames.TranslateAll` | index.js:33-42 | one report frame per extracted row, in the same order: equal length, and frame i is row i translated with the mapper's location for row i |
| `Frames.FileNameRule` | index.js:36 | fileName is the resolved source when it is truthy, otherwise the row's fileName |
| `Frames.PositionRule` | index.js:37-38 | lineNumber and columnNumber take the resolved value only when it is truthy; a resolved 0 falls back to the row's value |
| `Frames.ResolvedNameRule` | index.js:39 | with a truthy resolved source, functionName is `<name>@<source> <line>:<column>`. It and fileName do not depend on the row |
| `Frames.UnresolvedNameRule` | index.js:39-40 | with a falsy resolved source, functionName is the row's source label, or `unknown_func` when that label is falsy. The location's other fields do not affect it |
| `Frames.ZeroColumnDisagrees` | index.js:37-39 | a lookup that resolves to orig.js 3:0 gives functionName `foo@orig.js 3:0`, while columnNumber keeps the generated column 5 |
| `Frames.ResolvedExample` | index.js:36-39 | a lookup that resolves to orig.js line 3 column 1 name foo gives fileName orig.js, line 3, column 1, functionName `foo@orig.js 3:1` |
| `Frames.NoSourceMapKeepsRows` | index.js:8-40 | without a source map every frame keeps its row's file, line and column, and its functionName is the row's label or `unknown_func` |
| `Frames.SamePositionSameFrame` | index.js:22-28 | with a source map, two rows at the same generated line and column that resolve to a truthy source give identical report frames |
| `Frames.TranslateAllAppend` | index.js:33-42 | translating a concatenation of rows is the concatenation of the translations, so each frame depends on its own row only |
| `ErrorHandling.Delegate` | index.js:44-57 | no action exactly when no original handler was captured; an immediate call exactly on `ios`; otherwise a delayed call with a delay of 500. Every call goes to the captured handler with the same error and fatality flag |
| `ErrorHandling.DelegatesExactlyOnce` | index.js:44-57 | the captured handler is called exactly once with `(e, isFatal)` when there is one, and nothing is called otherwise |
| `ErrorHandling.Fire` | index.js:32-58 | a report exists exactly when extraction delivered rows. Its name and message are both `e.message`, and its frames are the rows translated one for one. The delegation is `Delegate` of the captured handler |
| `ErrorHandling.DelegationIndependentOfReport` | index.js:32-58 | the delegation does not depend on the extracted rows, on extraction failure, or on the mapper |
| `ErrorHandling.ErrorUtils.GetGlobalHandler` | index.js:31 | returns the handler currently in the slot |
| `ErrorHandling.ErrorUtils.SetGlobalHandler` | index.js:59 | the slot afterwards holds the given handler |
| `ErrorHandling.Init` | index.js:12-60 | in development mode the slot is unchanged. Otherwise the slot holds the wrapper around the handler it held before, with the mapper `SelectMapper` chooses |
| `ErrorHandling.Raise` | index.js:32 | when the slot holds the wrapper, a raised error gives exactly what `Fire` gives for the wrapper's captured handler and mapper |
| `ErrorHandling.ProductionScenario` | index.js:12-59 | production mode, no source map, an installed host handler, Android: error "boom" with one row x.js 1:2 is reported as ("boom", "boom", [x.js line 1 column 2 `unknown_func`]), and the host handler is called once after 500 ms with the same error |
| `ErrorHandling.DevelopmentScenario` | index.js:13-16 | in development mode, even with a source map given, the slot still holds the host handler afterwards and raising an error fires no wrapper |

## Left out

- Stack-trace extraction (`StackTrace.fromError` and its promise): this is asynchronous library code. Its result is a parameter, and an extraction failure appears only as "no report".
- The source-map consumer (`new SourceMapConsumer(smap)`, `originalPositionFor`): the consumer is the abstract parameter `consumerFor`. This includes the parse error a bad map raises inside `init`. That error would propagate before any handler is replaced, and the model does not include it.
- `Crashlytics.recordCustomExceptionName`: this is an SDK call. Only its arguments are modelled, as `Report`.
- Time and `setTimeout`: the delay is the tag `Delayed(..., 500)`. Nothing is modelled about timing or about ordering against the asynchronous report.
- How `__DEV__` and `Platform.OS` are determined: they are the parameters `dev` and `os`.
- JavaScript string coercion in the template literal: `IntToString` renders integers in decimal, and an absent field renders as "null". The model distinguishes neither `undefined` from `null` nor non-string values. Numbers are integers, so NaN and fractional values are not modelled.
- The source map argument is a string; a source-map object passed instead is not modelled.
- Repeated `init`: the code does not guard against it and promises nothing. `Init` wraps whatever the slot holds, so a second call in the model chains wrappers, as the code would.
- Handlers other than the wrapper: a host handler that fires is outside the model (`Raise` yields `None` for it).
