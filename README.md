# Sales-ledger notifier and request gate, modelled in Dafny

This project models the core of a small sales-ledger web application. The core has two parts.

**The notification engine** (`lib/discord.ts`). It turns the current list of sales into one summary message on a Discord webhook and keeps that message up to date:

- **Product cost.** A fixed unit-cost table matched against the lower-cased product name: `infinity` costs 250.00, `fw pro` costs 430.00, and the first match wins.
- **Aggregation.** It splits the sales into pending, delivered and cancelled lists, keeping input order. From those it computes:
  - the overall total;
  - the pending total;
  - the net profit, which is value minus unit cost summed over delivered sales only;
  - the latest five delivered sales, newest first.
- **Table formatter.** A fixed-width text table with truncated name and buyer cells and right-aligned values, fenced as a code block. An empty list gives a placeholder.
- **Embed.** The message: a title, the three amounts and two table fields.
- **Publisher.** It keeps at most one live message:
  - it edits the tracked message;
  - when that message is gone (HTTP 404 Not Found, section 15.5.5 of RFC 9110), it creates a new one;
  - it saves the new id into the persisted metadata and keeps every other metadata field;
  - with no webhook configured it does nothing.

**The request gate** (`middleware.ts`). A signed-in user asking for the login page is sent to `/`. An anonymous user asking for a protected page is sent to `/login`. Every other request passes through.

Modules, one file each:

- `wrappers.dfy`: `Option`.
- `strings.dfy`: the JavaScript string operations used, and decimal digits.
- `money.dfy`: `toFixed(2)` on whole cents, with its inverse.
- `sales.dfy`: the sale record.
- `costs.dfy`: the product-cost lookup.
- `aggregation.dfy`: the status lists and totals.
- `table.dfy`: the table formatter.
- `notifier.dfy`: the embed and the `Publisher` class.
- `middleware.ts` is modelled in `middleware.dfy`.

Modelling choices:

- Monetary values are whole cents (`int`). `toFixed(2)` becomes `Money.FormatCents`, which has a proved inverse `Money.ParseCents`. The cost table's 250 and 430 (reais) are 25000 and 43000 cents.
- A sale's `buyer` is an `Option<string>`. The record may lack the field, and `s.buyer || '-'` treats a missing buyer and an empty one alike.
- The publisher is a class:
  - the constant `webhookUrl` is the `DISCORD_WEBHOOK_URL` setting, where empty means unconfigured;
  - the field `metadata` is the persisted metadata file;
  - `Publish` updates `metadata` in place.
- The network answers are parameters:
  - `EditOutcome` is success, or an error with the response's HTTP status if there was a response;
  - `CreateOutcome` is a response whose body may carry an id, or an error.
- `Publish` returns the requests it sent, as `Patch(id, embed)` and `Post(embed)`, and how it ended. Its contract ties these and the new metadata to the specification functions `Requests`, `AfterPublish` and `PublishOutcome`. The lemmas below state the promised behaviour about those functions.
- The id stored after a failed recovery. A 404 answer to the edit clears only the local copy of the message id (`lib/discord.ts:94`). The persisted metadata keeps the old id until a create returns a new, non-empty one. So after a 404 followed by a failed create, or a create without an id, the stale id stays stored, and the next publish edits it again. A 404 never clears the stored id; only a later create that returns an id replaces it. The model states this (`Notifier.StaleIdIsRetried`, `Notifier.FailedRecoveryKeepsStaleId`).
- An empty stored id or an empty returned id is falsy in JavaScript, so both count as absent (`Notifier.TrackedId`, `Notifier.SavedId`).

## Model

| member | source | states |
|---|---|---|
| `Costs.ProductCost` | lib/discord.ts:6-11 | The cost is one of 0, 250.00 and 430.00. It is 250.00 exactly when the lower-cased name contains `infinity`. It is 430.00 exactly when the name contains `fw pro` and not `infinity`. Otherwise it is 0. |
| `Costs.CostIgnoresCase` | lib/discord.ts:7 | Two names that differ only in the case of ASCII letters cost the same. |
| `Costs.InfinityCosts250` | lib/discord.ts:8 | `Infinity` (capitalised) costs 250.00. |
| `Costs.FwProCosts430` | lib/discord.ts:9 | `FW PRO` costs 430.00. |
| `Costs.FirstMatchWins` | lib/discord.ts:8-9 | Any name with `Infinity` in it costs 250.00, whatever comes before or after it. That includes `FW PRO Infinity`: the first match wins. |
| `Strings.ContainsIff` | lib/discord.ts:8-9 | The substring search succeeds exactly when the word occurs at some position of the name. |
| `Strings.Contains` | lib/discord.ts:8-9 | `includes` as a left-to-right search. Its meaning is stated by `Strings.ContainsIff`: the search succeeds exactly when the word occurs at some position. |
| `Strings.StartsWith` | middleware.ts:8 | `startsWith`: the path begins with the given prefix. `Middleware.ApiRoutesPass` states what it decides: every path starting with `/api` passes through. |
| `Strings.Lower` | lib/discord.ts:7 | Lower-casing keeps the length and maps each character to its lower-case form. |
| `Aggregation.Filter` | lib/discord.ts:44-46 | `filter` by status; `PendingSales`, `DeliveredSales` and `CancelledSales` are its three instances. The result is never longer than the input. `FilterMembers`, `FilterAppend`, `FilterSingle` and `PartitionCovers` state that it keeps exactly the sales of that status, in input order. |
| `Aggregation.SumValues` | lib/discord.ts:48-49 | The `reduce` total of the values, folded from the first sale. `SumAppend` and `TotalSplitsByStatus` state how it splits over concatenation and by status. |
| `Aggregation.SumProfit` | lib/discord.ts:52-55 | The profit fold: each sale adds its value minus `ProductCost` of its name. `WorkedExample` fixes its value on the documented example. |
| `Aggregation.NetProfit` | lib/discord.ts:45-55 | The profit fold over the delivered sales only. `NetProfitIgnoresUndelivered` and `NetProfitIgnoresInsert` state that pending and cancelled sales never affect it. |
| `Aggregation.FilterMembers` | lib/discord.ts:44-46 | A sale is in a status list exactly when it is in the input and has that status. |
| `Aggregation.FilterAppend` | lib/discord.ts:44-46 | Filtering keeps input order: the filter of a concatenation is the concatenation of the filters. |
| `Aggregation.PartitionCovers` | lib/discord.ts:44-46 | As a multiset, pending, delivered and cancelled together are exactly the input, so every sale lands in exactly one list. |
| `Aggregation.SumAppend` | lib/discord.ts:48-49 | The total of a concatenation is the sum of the totals of its parts. |
| `Aggregation.TotalSplitsByStatus` | lib/discord.ts:44-49 | The overall total equals the pending total plus the delivered total plus the cancelled total. |
| `Aggregation.DeliveredIgnoresOthers` | lib/discord.ts:45 | Replacing a non-delivered sale with another non-delivered sale leaves the delivered list unchanged. |
| `Aggregation.NetProfitIgnoresUndelivered` | lib/discord.ts:52-55 | Replacing a pending or cancelled sale by another undelivered sale never changes the net profit. |
| `Aggregation.NetProfitIgnoresInsert` | lib/discord.ts:52-55 | Adding or removing a pending or cancelled sale anywhere in the list never changes the net profit. |
| `Aggregation.Reverse` | lib/discord.ts:69 | Reversal keeps the length and puts element k at position length-1-k. |
| `Aggregation.LatestDelivered` | lib/discord.ts:69 | The delivered field shows min(5, number delivered) sales. Position k holds the (k+1)-th most recent delivered sale. |
| `Aggregation.Summarize` | lib/discord.ts:44-55 | The fields are the list's total, its pending total, its net profit (the independently proved `NetProfit`), its pending sales in input order and its latest five delivered sales, newest first. The three totals are consistent: the total splits by status, and the pending total is the sum of the pending list. The pending list holds exactly the pending sales. At most five sales are shown, all delivered. An empty list gives zero sums and empty lists. |
| `Aggregation.WorkedExample` | lib/discord.ts:44-55 | A delivered Infinity at 500.00 and a pending FW PRO at 800.00 give a total of 1300.00, a pending total of 800.00 and a net profit of 250.00. |
| `Money.FormatCents` | lib/discord.ts:32 | A formatted amount has at least four characters, never starts with a space and holds no line break. |
| `Money.UnsignedRoundTrip` | lib/discord.ts:32 | A non-negative amount written with two fraction digits reads back as itself. |
| `Money.CentsRoundTrip` | lib/discord.ts:60 | Reading a formatted amount back gives the amount: two fraction digits lose nothing for whole cents. |
| `Money.FormatCentsFitsColumn` | lib/discord.ts:32 | Amounts from -9999.99 to 99999.99 take at most eight characters. |
| `Strings.DecimalRoundTrip` | lib/discord.ts:63 | The decimal spelling of a count is canonical and reads back as the count. |
| `Strings.DecimalSpellingRoundTrip` | lib/discord.ts:63 | A canonical digit string is the spelling of its own value. |
| `Strings.NatToDecimal` | lib/discord.ts:63 | `${pending.length}`: the spelling is non-empty and all digits. `Strings.DecimalRoundTrip` and `Strings.DecimalSpellingRoundTrip` state that it is the canonical spelling and reads back as the count. |
| `Strings.PadEnd` | lib/discord.ts:32 | `padEnd` reaches the width or keeps a longer string. It keeps the string as a prefix and fills the rest with spaces. |
| `Strings.PadStart` | lib/discord.ts:32 | `padStart` reaches the width or keeps a longer string. It keeps the string as a suffix and fills the front with spaces. |
| `Strings.Repeat` | lib/discord.ts:19 | `c.repeat(n)`: exactly `n` characters, each of them `c`. |
| `Strings.TrimPadStart` | lib/discord.ts:32 | Right-aligning a string that does not start with a space can be undone. |
| `Strings.SplitJoin` | lib/discord.ts:33 | Splitting at newlines undoes joining with newlines when no line holds a newline. |
| `Strings.JoinAppend` | lib/discord.ts:33-35 | Joining a concatenation puts exactly one newline between the two joins. |
| `Strings.JoinLines` | lib/discord.ts:33 | `join('\n')`. `Strings.SplitJoin` and `Strings.JoinAppend` state that splitting at newlines undoes it when no line holds a newline, and that joining a concatenation puts one newline between the parts. |
| `Table.Truncate` | lib/discord.ts:22-30 | A cell is at most 13 characters. It equals the input exactly when the input has 13 or fewer characters. A longer input becomes its first 12 characters plus one ellipsis, 13 in all. |
| `Table.BuyerText` | lib/discord.ts:27 | The buyer text is never empty. A present, non-empty buyer is shown as is. |
| `Table.MissingBuyerShowsDash` | lib/discord.ts:27-32 | A missing or empty buyer renders as `-` padded to 15. |
| `Table.CellWidths` | lib/discord.ts:32 | Every padded name and buyer cell is exactly 15 characters. The value cell is at least 8. |
| `Table.NameCellShows` | lib/discord.ts:22-25 | A name that fits is shown whole. A longer one shows its first 12 characters and an ellipsis. The rest of the cell is spaces. |
| `Table.RowColumns` | lib/discord.ts:32 | Each row is laid out as: name cell (0-14), a space, buyer cell (16-30), ` R$ `, then the value cell. |
| `Table.RowValueReadsBack` | lib/discord.ts:32 | The value column of a row, with its leading spaces dropped, reads back as the sale's value. |
| `Table.RowWidth` | lib/discord.ts:32 | A value from -9999.99 to 99999.99 gives a row of exactly 43 characters. |
| `Table.Rows` | lib/discord.ts:21-33 | One row per sale, in input order. |
| `Table.Row` | lib/discord.ts:21-32 | One row of the table: `NameCell`, space, `BuyerCell`, ` R$ `, and `ValueCell` (the right-aligned value). Its layout is stated by `RowColumns`, `RowWidth`, `RowValueReadsBack` and `RowHasNoNewline`. |
| `Table.FormatTable` | lib/discord.ts:13-36 | `formatTable`. The result is the placeholder exactly when the list is empty. `EmptyTable`, `TableIsJoinedLines` and `TableReadsBackLineByLine` state the rest. |
| `Table.EmptyTable` | lib/discord.ts:14 | An empty list renders as `Nenhum registro.`. |
| `Table.TableIsJoinedLines` | lib/discord.ts:18-35 | A non-empty table is the fence, header, separator, rows and closing fence joined by newlines. |
| `Table.FrameIsPlain` | lib/discord.ts:18-19 | The fences, `Header` and `Separator` hold no line break. |
| `Table.RowHasNoNewline` | lib/discord.ts:21-32 | A row holds no line break when the name and buyer hold none. |
| `Table.TableReadsBackLineByLine` | lib/discord.ts:18-35 | When no name or buyer holds a line break, a non-empty table read line by line is: fence, header, separator, one row per sale in input order, closing fence. That is exactly four more lines than sales. |
| `Notifier.Description` | lib/discord.ts:60 | The summary block of the embed: the heading and three `AmountLine`s. Its four lines and the amounts they read back as are stated by `DescriptionLines` and `DescriptionReadsBack`. |
| `Notifier.BuildEmbed` | lib/discord.ts:57-77 | The embed for a sale list. Its content is stated by `EmbedDescriptionReadsBack` and `EmbedReports`. |
| `Notifier.DescriptionLines` | lib/discord.ts:60 | Split at newlines, the description is exactly the heading, the total line, the net-profit line and the open-total line, in that order. |
| `Notifier.DescriptionReadsBack` | lib/discord.ts:60 | The description has four lines: the heading, then lines from which the total, the net profit and the pending total read back exactly. |
| `Notifier.PendingTitleReadsBack` | lib/discord.ts:63 | The pending field's title reads back as the count written into it. |
| `Notifier.EmbedDescriptionReadsBack` | lib/discord.ts:44-60 | The embed's description has four lines, and its amount lines read back as the sale list's total, its net profit and its pending total. |
| `Notifier.EmbedReports` | lib/discord.ts:57-77 | The embed has two fields. The first field's title reads back as the number of pending sales, and its table lists the pending sales in input order. The second field's table lists the latest delivered sales, at most five. |
| `Notifier.Publisher.constructor` | lib/discord.ts:79-80 | A publisher starts from the configured webhook and the stored metadata. |
| `Notifier.Publisher.Publish` | lib/discord.ts:79-113 | The requests sent, the new metadata and the outcome are those the specification functions give for the old metadata and the two answers. |
| `Notifier.Publisher.NotifyDiscord` | lib/discord.ts:38-113 | With no webhook: no request, outcome "not configured", metadata unchanged. Otherwise: the requests, new metadata and outcome of publishing the embed built from the sales. |
| `Notifier.Requests` | lib/discord.ts:82-110 | The requests one publish sends: an edit of the tracked message, then a create when nothing is tracked or the edit answered 404. `RequestBounds`, `EditSuccessKeepsState`, `OtherEditErrorAborts`, `NotFoundRecreates` and `UntrackedCreates` state its cases. |
| `Notifier.AfterPublish` | lib/discord.ts:102-109 | The stored metadata after one publish: only a create that returns a non-empty id changes it, and only its id. `PublishKeepsOtherFields`, `StaleIdIsRetried` and `CreatedMessageIsEditedNext` state this. |
| `Notifier.PublishOutcome` | lib/discord.ts:83-113 | How one publish ends: edited, created (with or without a saved id) or failed. Its cases are stated by `EditSuccessKeepsState`, `OtherEditErrorAborts`, `NotFoundRecreates` and `UntrackedCreates`. |
| `Notifier.Truthy` | lib/discord.ts:83 | The JavaScript truth test on an id: absent and empty both count as false. `Notifier.UntrackedCreates` states the consequence: an empty stored id leads to a create, as an absent one does. |
| `Notifier.TrackedId` | lib/discord.ts:80-83 | The message the stored metadata tracks: the stored id when it is non-empty, otherwise none. `Notifier.UntrackedCreates` and `Notifier.RequestBounds` state what a publish does with it. |
| `Notifier.SavedId` | lib/discord.ts:107 | `response.data && response.data.id`: the id a create response hands over, only when it is non-empty. `Notifier.PublishKeepsOtherFields` and `Notifier.UntrackedCreates` state that only such an id is ever stored. |
| `Notifier.RequestBounds` | lib/discord.ts:82-110 | A publish sends one or two requests, and only the last can be a create. There are two exactly when a tracked message was not found. |
| `Notifier.EditSuccessKeepsState` | lib/discord.ts:83-89 | A tracked id and a successful edit give a single edit request and no create. The metadata is unchanged. |
| `Notifier.OtherEditErrorAborts` | lib/discord.ts:90-97 | An edit error other than 404 gives no create. The metadata is unchanged and the outcome is a failure. |
| `Notifier.NotFoundRecreates` | lib/discord.ts:92-113 | After a 404 exactly one create follows. A returned id replaces the stored id and keeps every other field. Without one, the old id stays stored. The publish reports a create (saved or not) when the create answered, and a failure otherwise. |
| `Notifier.UntrackedCreates` | lib/discord.ts:83-113 | With no stored id, or an empty one, the publish is a single create. Only a returned non-empty id is stored. The outcome is a create (saved or not), or a failure when the create errs. |
| `Notifier.PublishKeepsOtherFields` | lib/discord.ts:107-109 | A publish never changes the other metadata fields. A stored id only ever changes to a non-empty one. |
| `Notifier.StaleIdIsRetried` | lib/discord.ts:94-109 | After a 404 and a create that fails or returns no id, the next publish edits the same stale id again. |
| `Notifier.CreatedMessageIsEditedNext` | lib/discord.ts:83-109 | After a create that returned an id, the next publish edits that message. |
| `Notifier.EditKeepsTrackedId` | lib/discord.ts:83-89 | Stored `M1` and a successful edit: one edit of `M1`, and `M1` stays stored. |
| `Notifier.RecoveryStoresNewId` | lib/discord.ts:90-109 | Stored `M1`, a 404, and a create returning `M2`: an edit and a create are sent, and `M2` is stored. |
| `Notifier.FailedRecoveryKeepsStaleId` | lib/discord.ts:92-110 | Stored `M1`, a 404, and a failed create: `M1` stays stored, and the next publish edits `M1`. |
| `Notifier.UnconfiguredIsNoOp` | lib/discord.ts:39-42 | Without a webhook nothing is sent and the metadata is unchanged, whatever it holds. |
| `Middleware.Route` | middleware.ts:4-22 | It redirects to `/` exactly for a signed-in request for `/login`. It redirects to `/login` exactly for an anonymous request for a protected page. Every redirect goes to one of these two. |
| `Middleware.Protected` | middleware.ts:17 | A protected page: not `/login`, not starting with `/api`, with no `.`. `Middleware.Route` states that an anonymous request is sent to `/login` exactly for these paths. |
| `Middleware.SignedInLoginGoesHome` | middleware.ts:7-14 | `/login` with the auth cookie redirects to `/`. |
| `Middleware.AnonymousProtectedGoesToLogin` | middleware.ts:7-19 | Without the cookie, a path that is not `/login`, does not start with `/api` and has no `.` redirects to `/login`. |
| `Middleware.ApiRoutesPass` | middleware.ts:8-21 | A path starting with `/api` always passes through. |
| `Middleware.PublicFilesPass` | middleware.ts:9-21 | A path containing `.` always passes through. |
| `Middleware.SignedInPasses` | middleware.ts:12-21 | With the cookie, every path except `/login` passes through. |
| `Middleware.NoRedirectLoop` | middleware.ts:12-21 | The target of any redirect passes through with the same cookie state. |

## Left out

- Reading and writing the metadata file (`lib/data.ts`) is left out. The file is the `metadata` field, and a missing or unparsable file is the caller's `Metadata(None, map[])`. Other metadata fields are modelled as a string-to-string map; their JSON values are not modelled.
- HTTP is left out: the webhook URLs, the `?wait=true` query and the JSON body of requests and responses. Only the answers that steer the publisher are parameters.
- Logging (`console.warn`, `console.log`, `console.error`) is left out. Each logged path is an `Outcome`.
- Floating point is left out. Values are whole cents, so the rounding of `toFixed(2)`, float summation error and the exponent notation `toFixed` uses from 1e21 up are not modelled.
- The clock is left out. The local-time text and the ISO timestamp are parameters of `BuildEmbed`.
- `toLowerCase` lower-cases only the ASCII letters here; full Unicode case mapping is not modelled.
- Lengths are counted in characters, not UTF-16 code units. Names or buyers with characters outside the Basic Multilingual Plane are truncated at a different point than in JavaScript.
- The `matcher` pattern in `middleware.ts:24-26` is framework route selection and is not modelled.
- Redirect targets are paths; the absolute URL built from the request is not modelled. The auth cookie is modelled as present or absent.
- A metadata read error (the file exists but cannot be read, lib/data.ts:45) and a file holding JSON `null` both make `notifyDiscord` throw before its `try` (lib/discord.ts:79-80), so the error escapes to the caller. Neither is modelled: `NotifyDiscord` always starts from a `Metadata` value.
- Concurrent publishes racing on the stored id are not modelled.
- The sale's `id` is not used by the core and is kept only as data; `created_at` is dropped from `Sales.Sale`.
- A failing `saveMetadata` write, whose exception the publisher catches and logs (lib/discord.ts:111), is not modelled: the model always stores a returned id and reports `Created(true)`.
- The sales routes, the login route and the pages are not part of this model.
