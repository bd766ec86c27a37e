# Logger facade: argument normalisation, dispatch and webhook body

This project models the core of a structured logging facade written in
TypeScript (`src/index.ts`). The facade wraps a leveled logger (the sink),
normalises the arguments of a log call into a record, and for error-level
events may post a notification to a Discord webhook.

What is modelled:

- `stringifyArg`: one argument rendered as text. Arguments form a closed
  datatype `Arg` (string, number, boolean, `null`, `undefined`, other object,
  `Error`). Numbers include `NaN` and the two infinities; an `Error` carries
  its message, its stack and an identity. JSON serialisation and the text of a
  finite number are host functions the model leaves uninterpreted; they are
  carried by a `Runtime` value.
- `Logger.formatLogArgs`: either `[{err}, message]` when the first argument is
  an Error, or `[message]`; the message is the renderings joined with single
  spaces. A `Split` on spaces is the join's inverse whenever no rendering holds
  a space.
- The `error` override that `WrapLogger` installs. When the first argument is
  a primitive string and there are more, it scans positions 1 to n-1 and moves
  each Error to the front (`splice` then `unshift`). It is modelled as an
  in-place loop over the rest-parameter array (`ErrorOrder.ReorderErrorArgs`,
  with `MoveToFront` doing the shift). Its result is specified step by step
  (`PulledForward`) and proved equal to an independent description: the Errors
  in reverse order of position, then every other value in original order. A
  consequence is that the carrier is the LAST Error after the string.
- The six severity methods of `Logger`. The sink is a ghost append-only log of
  `(level, payload, message?)` records, and started webhook posts are a second
  ghost log. `error` writes both components and starts a post exactly when the
  webhook URL is non-empty and the payload is the `{err}` carrier. The other
  five write only the first component.
- Level resolution in the constructor: `logLevel || LOG_LEVEL || 'info'`.
- The webhook body: title `"An error occurred: " + message`, the stack as
  description, colour `0xff0000`, and `content || undefined`.

Only `error` reorders, and only behind a leading primitive string: `error(7, e)`
and `info("ctx", e)` keep `e` in the message and log no carrier
(`ErrorOrder.NoStringNoCarrier`, `Facade.OverrideNotifiesIff`,
`Facade.LevelRecord`).

## Model

| member | source | states |
|---|---|---|
| `Values.StringifyArg` | src/index.ts:7-12 | objects, Errors included, render through JSON serialisation; strings pass through verbatim; `null`, `undefined`, booleans, finite numbers, `NaN` and the infinities take their default string form |
| `Text.JoinAppend` | src/index.ts:103 | joining two non-empty lists with `' '` puts exactly one space between the two joins |
| `Text.SplitJoin` | src/index.ts:103 | splitting a join on spaces gives back the parts, in order, when no part contains a space |
| `Formatting.FormatLogArgs` | src/index.ts:97-106 | the result is a carrier exactly when the first argument is an Error, the carrier holds that Error, and the message joins the renderings of the remaining arguments |
| `Formatting.LeadingErrorIsCarrier` | src/index.ts:98-101 | a leading Error gives `[{err: args[0]}, join of args[1..]]`; the message is empty when the Error is alone |
| `Formatting.OtherwisePlain` | src/index.ts:102-104 | without a leading Error the result is one string, the join of all renderings in order; no arguments give `""` |
| `Formatting.MessageSplitsIntoRenderings` | src/index.ts:97-106 | the message loses no argument: split on spaces it yields every rendering in argument order, when none holds a space |
| `Formatting.PlainMessageCons` | src/index.ts:102-104 | a non-Error argument followed by others contributes its rendering, one space, then the join of the others |
| `Formatting.ServerStartedMessage` | src/index.ts:103 | `("Server started on port", 8080)` formats to `"Server started on port 8080"` |
| `Formatting.BoomCarrierMessage` | src/index.ts:98-101 | `(Error("boom"), "while processing job", 42)` formats to the carrier of that Error with `"while processing job 42"` |
| `ErrorOrder.ReorderedArgs` | src/index.ts:43-51 | the list handed to `Logger.error` has the same length and is a permutation of the input; it is the input itself unless the first argument is a string and there are more |
| `ErrorOrder.PulledForwardIsPermutation` | src/index.ts:44-50 | moving Errors to the front one at a time keeps the length and the multiset of arguments |
| `ErrorOrder.PulledForwardOrder` | src/index.ts:44-50 | after the scan the list is the Errors in reverse order of position followed by every other value in original order |
| `ErrorOrder.ReorderedShape` | src/index.ts:43-51 | under the guard the list is the later Errors reversed, then the leading string, then the other later values in order; with no later Error it is unchanged |
| `ErrorOrder.CarrierIsLastError` | src/index.ts:42-53 | through the override, the carrier is the last Error after the string, and the message renders the other Errors (last first), the string, then the rest in order |
| `ErrorOrder.ContextWithOneError` | src/index.ts:42-53 | a string followed by arguments holding one Error logs that Error as carrier and the string plus the other arguments, in order, as the message |
| `ErrorOrder.ContextThenError` | src/index.ts:42-53 | `error("ctx", e)` formats to `{err: e}` with the message `"ctx"` |
| `ErrorOrder.NoStringNoCarrier` | src/index.ts:43 | with a number first, an Error second is not moved and no carrier is logged |
| `ErrorOrder.MoveToFront` | src/index.ts:47-48 | `splice(i, 1)` then `unshift`: the element at `i` is first, the ones before it follow in order, the ones after it keep their positions |
| `ErrorOrder.ReorderErrorArgs` | src/index.ts:43-51 | the array after the override's loop equals `ReorderedArgs` of the array before it |
| `Webhook.DiscordBody` | src/index.ts:18-27 | one embed whose title gives back the Error's message after the prefix `"An error occurred: "`, whose description is the stack and whose colour is 16711680; `content` is present exactly when it is set and non-empty |
| `Webhook.BoomTitle` | src/index.ts:22 | the Error "boom" gets the title `"An error occurred: boom"` |
| `Facade.ResolveLevel` | src/index.ts:75-77 | the explicit option if non-empty, else the environment value if non-empty, else `"info"`; never empty |
| `Facade.LevelRecord` | src/index.ts:122-145 | the non-error levels write at their own level, with no message; the payload is `{err: args[0]}` when the first argument is an Error, else the space-join of every argument's rendering |
| `Facade.ErrorRecord` | src/index.ts:108-110 | `error` writes at error level; for a leading Error the payload is `{err: args[0]}` and the message the space-join of the renderings of the rest, otherwise the payload is the join of all renderings and there is no message |
| `Facade.Notices` | src/index.ts:111-119 | at most one post, started exactly when the webhook URL is non-empty and the payload is the carrier; it goes to that URL with the body built from the first argument and `content` |
| `Facade.LevelRecordDropsTrailingArgs` | src/index.ts:122-125 | with a leading Error, the non-error levels write `{err}` alone, whatever the later arguments |
| `Facade.ErrorKeepsWhatLevelsDrop` | src/index.ts:108-125 | `error` and the other levels write the same payload; only `error` adds the message, and only for a carrier |
| `Facade.OverrideNotifiesIff` | src/index.ts:111-119 | through the override a post starts exactly when the URL is non-empty and either the first argument is an Error or a leading string is followed by an Error |
| `Facade.ContextErrorRecord` | src/index.ts:108-119 | `error("ctx", e)` writes `{err: e}` with `"ctx"` and, with a URL set, posts the body built from `e` |
| `Facade.Logger.constructor` | src/index.ts:72-77 | stores `content` and `webhookURL` and the resolved level; the logs start empty |
| `Facade.Logger.BaseError` | src/index.ts:108-120 | appends the error record to the sink log and the post, if any, to the notice log |
| `Facade.Logger.Error` | src/index.ts:42-53 | reorders a copy of the arguments, then behaves as `BaseError` on the reordered list |
| `Facade.Logger.Info` | src/index.ts:122-125 | appends the info record; starts no post |
| `Facade.Logger.Warn` | src/index.ts:127-130 | appends the warn record; starts no post |
| `Facade.Logger.Debug` | src/index.ts:132-135 | appends the debug record; starts no post |
| `Facade.Logger.Trace` | src/index.ts:137-140 | appends the trace record; starts no post |
| `Facade.Logger.Fatal` | src/index.ts:142-145 | appends the fatal record; starts no post |

## Left out

- The construction of the pino sink, its `pino-pretty` transport and the production switch (src/index.ts:78-94): foreign library configuration. The sink is only the ghost log of calls made to it.
- `child` and `silent` (src/index.ts:147-153): plain passthroughs to the foreign sink.
- Level filtering: the sink drops records below its level; the model records every call the facade makes to the sink, not what the sink then emits.
- Validation of the level name: the constructor casts the resolved string to a level without checking it; the sink rejects unknown names. The model keeps the string.
- The HTTP `fetch` and its asynchronous failure path (src/index.ts:14-17, 28-35, 116-118): network I/O and asynchrony. A started post is recorded; delivery and the follow-up failure log line are not.
- The internals of `JSON.stringify` and of `String` on numbers: host functions, uninterpreted (so the `"{}"` that an Error serialises to is not known to the model). Serialisation that throws (cyclic objects) is not modelled; rendering is total.
- Functions, symbols and bigints as arguments: not in the `Arg` datatype.
- Negative zero: it is the number `Finite(0.0)`, since it prints as "0"; JSON serialisation of an object holding `-0` is inside the uninterpreted host function.
- The own properties of an Error other than `message` and `stack` (such as `code` or `errno`): the model gives each Error an identity and leaves what JSON serialisation shows of those properties to the host function.
- Reading `LOG_LEVEL` through `dotenv` and `process.env`: the value is a constructor parameter.
- The decorator and subclass mechanics of `WrapLogger` (src/index.ts:37-41, 65): the override is `Logger.Error`, which reorders and then calls `Logger.BaseError`.
- `__tests__/test.ts` mocks the methods it calls, so it states nothing about this logic.
