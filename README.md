# cosmos-monitor alert classifier and renderer

A Dafny model of the notification layer of cosmos-monitor (`notification/event.go`).
A poll cycle hands it the filtered problem records of that cycle: jailed validators,
inactive validators, validators that missed signatures, validators ranked too low,
and new governance proposals. The layer turns each list into a typed exception and
renders a non-empty exception as alert text. The text is a header line (the
exception's name). It is followed by one fixed-template line per record, in record
order.

Modules:

- `Wrappers` (wrappers.dfy): `Option`. Go's `nil` exception pointer is `None`.
- `Types` (types.dfy): the records the constructors read (`ValIsJail`, `ValIsActive`,
  `ValRanking`, `ValSignMissed`, `Proposal`), plus Go's `int64` and `int` as bounded
  integer types.
- `Format` (format.dfy): the parts of `fmt.Sprintf` the templates use. That is `%d`
  (`Decimal`, with the reading function `DecimalValue` as its inverse) and the line
  concatenation that `msg += ...` builds (`Concat`, `Rendered`).
- `Notification` (notification.dfy): the shared per-record triple `ValRecord`. The
  `Event` interface is a tagged union with one constructor per exception kind, with
  `Name`, `IsEmpty` and the method `Message`. The method is proved equal to the
  rendering function `Render`, and the lemmas are stated about `Render`. The file also
  holds the five `Parse*Exception` constructors as methods that loop and append, as the
  source does.

The per-record triple of the Go `exception` struct (`notification/event.go:17-23`) is the
datatype `ValRecord`. It is a value, so it has no contract of its own; the `Parse*`
rows below state what each constructor stores in it.

Quirks of the code the model keeps:

- The missed-signature line shows the operator address, because `ParseSyncException`
  stores `OperatorAddr` in the moniker slot (`notification/event.go:215`).
- The jailed and inactive constructors leave the block height at 0
  (`notification/event.go:146`, 170).
- Empty input is logged with `logger.Error` (`notification/event.go:129`, 153, 177,
  198, 224). This is not modelled.

## Model

| member | source | states |
|---|---|---|
| `Format.Decimal` | notification/event.go:79-80 | `%d` of a non-negative integer is a canonical digit string: non-empty, digits only, no leading zero unless it is "0". A negative integer is '-' followed by such a string, not "0". |
| `Format.DecimalRoundTrip` | notification/event.go:99-100 | Reading back the digits `%d` wrote gives the original integer, for every integer. |
| `Format.DecimalInjective` | notification/event.go:99-100 | Two integers render the same under `%d` exactly when they are equal. So distinct proposal ids and heights show as distinct text. |
| `Format.ConcatAt` | notification/event.go:43-45 | In the concatenation of a line sequence, line i occupies the span that starts where the first i lines end and has line i's length. |
| `Notification.Event.Name` | notification/event.go:36-112 | Every kind's header is non-empty and ends in a newline. The headers are the five literals at lines 37, 54, 71, 91 and 111. |
| `Notification.Event.IsEmpty` | notification/event.go:49-125 | A proposal exception is empty exactly when its proposal list is empty. Any other kind is empty exactly when its validator list is empty. |
| `Notification.Event.Message` | notification/event.go:39-121 | The loop that appends one templated line per record returns exactly `Render`. That is "" when the exception is empty, and otherwise the header followed by the lines of all records in record order. |
| `Notification.Event.Render` | notification/event.go:40-47 | The message is the empty string if and only if the exception holds no record (both directions, every kind). A non-empty exception's message starts with its `Name()`. |
| `Notification.Event.Lines` | notification/event.go:42-46 | There is one message line per record, and line k is the template line of record k, in record order. |
| `Notification.Event.LineNamesChain` | notification/event.go:44-118 | `Event.Line` picks the kind's template for record i. Every template shows that record's chain name right after the opening "The ". |
| `Notification.JailedLine` | notification/event.go:44 | The jailed line is "The ", the chain name, "' ", the moniker, then " validator has been jailed\n", each at its exact position, and nothing else. |
| `Notification.InactiveLine` | notification/event.go:61 | The inactive line is "The ", the chain name, "' ", the moniker, then " validator is Inactive\n", each at its exact position, and nothing else. |
| `Notification.RankingLine` | notification/event.go:118 | The ranking line is "The ", the chain name, "' ", the moniker, then the fixed "ranking has exceeded the ranking threshold" sentence ending in a newline, each at its exact position, and nothing else. |
| `Notification.SyncLineLayout` | notification/event.go:79-80 | The missed-signature line is the five fixed pieces of its format string, with chain name, moniker, threshold text and `%d` of the block height between them. Each piece and each value sits at its position, and the last piece ". \n" ends the line. |
| `Notification.ProposalLineLayout` | notification/event.go:99-100 | The proposal block is the six fixed pieces of its format string, with chain name, `%d` of the proposal id, voting start time, voting end time and description between them. Each sits at its position, and the block ends in " \n\n\n". |
| `Notification.Trimmed` | notification/event.go:185-191 | The copy keeps chain name, proposal id, voting start and end time and description. Its moniker, operator address and status are the zero values. |
| `Format.RenderedLineAt` | notification/event.go:41-46 | For any header and lines, the message built as "header, then each line appended" is tiled exactly. Line i occupies [Offset(i), Offset(i)+|line i|), the first line starts right after the header, and the last line ends at the end of the message. |
| `Notification.RenderLineAt` | notification/event.go:41-46 | The same tiling for an exception's message. Line i sits at [LineStart(i), LineStart(i+1)), the first line starts right after the header, and the last line ends at the end of the message. So there is exactly one line per record, in record order. |
| `Notification.ProportionOnlyInSync` | notification/event.go:73-84 | The configured threshold affects only the missed-signature message. Every other kind renders the same text for any threshold. |
| `Notification.NamesDistinct` | notification/event.go:36-112 | Two exceptions have the same header exactly when they are of the same kind. |
| `Notification.ParseValJailedException` | notification/event.go:127-149 | Empty input gives `None`, and no other input does. Otherwise the result is a non-empty jailed exception with one record per input, in order, holding the input's chain name and moniker and block height 0. |
| `Notification.ParseValisActiveException` | notification/event.go:151-173 | Empty input gives `None`, and no other input does. Otherwise the result is a non-empty inactive exception with one record per input, in order, holding chain name, moniker and block height 0. |
| `Notification.ParseProposalException` | notification/event.go:175-194 | Empty input gives `None`, and no other input does. Otherwise the result is a non-empty proposal exception with one copy per input, in order. Each copy keeps chain name, proposal id, voting start and end time and description; its moniker, operator address and status are zero. |
| `Notification.ParseSyncException` | notification/event.go:196-220 | Empty input gives `None`, and no other input does. Otherwise the result is a non-empty sync exception with one record per input, in order. Each record holds the chain name, the operator address in the moniker slot, and the block height, whose value the int64 conversion keeps. |
| `Notification.ParseValisRankingException` | notification/event.go:222-244 | Empty input gives `None`, and no other input does. Otherwise the result is a non-empty ranking exception with one record per input, in order, holding chain name, block height and moniker. |
| `Notification.SyncLineShowsOperatorAddr` | notification/event.go:209-216 | For a sync exception built as `ParseSyncException` builds it, message line i is the missed-signature template filled with record i's chain name, operator address, the threshold and record i's block height. |
| `Notification.TrimmedRendersAsOriginal` | notification/event.go:183-191 | The trimmed proposal copies render exactly as the untrimmed proposals would. Dropping fields loses nothing the message shows. |
| `Notification.JailedScenario` | notification/event.go:127-148 | One jailed record (chain "cosmos", moniker "X"), parsed and rendered, gives "Validator Jailed Exception\nThe cosmos' X validator has been jailed\n". |

## Left out

- Logging: the `logger.Error` calls on empty input (`notification/event.go:129`, 153, 177, 198, 224) have no effect on results.
- Configuration: the `viper.GetFloat64("alert.proportion")` read (`notification/event.go:74`) becomes the explicit `proportion` parameter of `Message`/`Render`.
- Floating-point rendering: `proportion` is the text `%f` produces, taken as given. Floating-point formatting is not modelled.
- Nil pointers: Go's pointer and `nil`-receiver semantics are not modelled. This covers `Message` or `IsEmpty` called on a `nil` exception, and a `nil` element in an input slice, both of which panic in Go. Inputs are sequences of values and results are values. Because every constructor copies its inputs, no sharing with the caller's records can be observed.
- Platform width: Go's `int` is taken to be 64 bits wide, so `int64(BlockHeight)` in `ParseSyncException` is the identity. On a 32-bit build the conversion widens, which also keeps the value.
- The `types` package: its declarations are not part of this model. Only the fields the constructors read are modelled for `ValIsJail`, `ValIsActive` and `ValRanking`. The names of `Proposal`'s last three fields are ours; their order and kinds come from the positional literal in `db/evmos-db/db_test.go:142-151`.
- `db/evmos-db/db_test.go`: tests against a live database. Only the field order of its record literals (`db/evmos-db/db_test.go:88-93`, 142-151) is used.
- `rpc/injective-rpc/rpc_client_test.go`: tests against a remote gRPC endpoint. Nothing in them is modelled.
- `rpc/cosmos-rpc/rpc_client.go`: configuration-driven gRPC client wiring over generated query stubs. It is I/O plumbing with no logic of its own to model.
