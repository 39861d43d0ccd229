# usdtpay relay: a verified model of its core

The repository is a small HTTP relay between a merchant back end and a USDT
payment gateway (`src/index.ts`). Almost all of it is Express routing and axios
calls. This model covers the three pieces of it that hold logic:

- **`dateFormat(fmt, date)`** (module `DateFormatting`). For each pattern letter
  `Y`, `m`, `d`, `H`, `M`, `S`, in that order, it finds the leftmost maximal run
  of the letter with `new RegExp("(" + k + ")").exec(fmt)`. It then rewrites that
  run with `fmt.replace(ret[1], …)`. A one-letter run gets the field's text as it
  is. A longer run gets the field's text left-padded with `'0'` to the run's
  length. The date is given as six natural numbers (`DateFields`). `FirstRun`
  models the regex match, `Text.Replace` models `String.prototype.replace` with a
  string pattern, and `Text.PadStart` models `padStart`. `DateFormat` is the
  for-in loop itself, proved equal to the function `Format`.
- **The order-id counter** (module `Relay`, class `RelayServer`). `todayNum` is
  fixed at start-up as `parseInt(dateFormat('YYYYmmdd', now))`. `orderNum`
  starts at 1 and is incremented before every `/createOrder` builds the id
  `${todayNum}${orderNum}`. So the first id ends in 2. The ghost field `issued`
  records the ids handed to the gateway. `Valid()` ties it to
  `IssuedIds(todayNum, orderNum - 1)`, and the lemmas about `IssuedIds` prove the
  ids pairwise distinct.
- **The failure fallbacks** (module `Gateway`). Each helper (`balanceOf`,
  `requestPay`, `checkPay`, `updatePay`) turns a gateway `Outcome` (a response
  body, or `Failed`) into a `Completion` (a returned value, or `Threw`). Each
  route's reply is a function of that completion, including the route's own
  catch branch. The `…Route` functions compose the two and prove that no catch
  branch is reached.

`Decimal` models `Number.prototype.toString` on whole numbers (`NatToString`)
and `parseInt` on digit strings (`ParseDecimal`), with the round trip between
them.

Behaviour of the code worth knowing:

- On a gateway failure, `/balance` answers `{status: true, data: 0}`, not
  `{status: false}`. `balanceOf` catches the error itself and returns 0, so the
  route's catch never runs (`BalanceRoute`).
- The balance is `parseInt(balance) / 10 ** decimal`, a true (floating-point)
  division, modelled as exact division of reals, not a truncating one. A raw 123450 at precision 2 gives 1234.5
  (`BalanceExample`).
- `/createOrder` answers with the payment-page address `frontend` as `data`, not
  the whole order result. On a gateway failure it answers
  `{status: true, data: ''}`, not `{status: true}` (`CreateOrderRoute`).
- `/createOrder` does not forward the body's `params` to the gateway. It calls
  `requestPay` without that argument (`RelayServer.CreateOrder` passes `None`).

## Model

| member | source | states |
|---|---|---|
| Decimal.NatToString | src/index.ts:105-110 | a field's `toString()` is a non-empty string of decimal digits that starts with '0' only for 0 |
| Decimal.ParseNatToString | src/index.ts:130 | `parseInt` of a number's decimal text gives the number back |
| Decimal.ParseDecimal | src/index.ts:130 | `parseInt` on a string of decimal digits gives a number below 10^(number of digits) |
| Decimal.NatToStringInjective | src/index.ts:155 | different numbers have different decimal texts |
| Decimal.NatToStringLongerThan | src/index.ts:116 | a number of at least 10^k has more than k digits |
| Decimal.NatToStringAtMost | src/index.ts:116 | a number below 10^k has at most k digits |
| Text.PadStart | src/index.ts:116 | `padStart(width, '0')` keeps the text whole at the end, reaches `width` when shorter, and never truncates |
| Text.IndexOfFrom | src/index.ts:116 | the search `replace` performs finds the first occurrence of the pattern from a position, or reports that there is none |
| Text.ReplaceFirstOccurrence | src/index.ts:116 | `replace` with a string pattern rewrites only the first occurrence: the text before it and after it is kept, and the replacement stands in its place |
| Text.ReplaceAbsent | src/index.ts:116 | `replace` returns the string unchanged when the pattern does not occur |
| Text.IndexOfIsFirstOccurrence | src/index.ts:116 | the occurrence `replace` rewrites is the unique one with no earlier occurrence |
| DateFormatting.FieldText | src/index.ts:104-111 | each entry of the `opt` table is a non-empty string of decimal digits |
| DateFormatting.RunEnd | src/index.ts:114 | the greedy `+` of the regex extends a run to its last consecutive letter |
| DateFormatting.FirstRunFrom | src/index.ts:114 | the leftmost run of the letter at or after a position, or none when the letter is absent there |
| DateFormatting.FirstRun | src/index.ts:114 | `exec` fails exactly when the letter is absent; otherwise it matches the leftmost maximal run |
| DateFormatting.FirstRunUnique | src/index.ts:114 | the leftmost maximal run of a letter is unique |
| DateFormatting.Render | src/index.ts:116 | a one-letter run gets the field unpadded; a longer run gets the field left-padded with '0' to the run length; the field is never truncated |
| DateFormatting.DateFormat | src/index.ts:102-120 | the for-in loop over Y, m, d, H, M, S returns `Format(fmt, date)`, the six turns applied in order |
| DateFormatting.RunIsFirstOccurrence | src/index.ts:114-116 | `fmt.replace(ret[1], …)` rewrites the text at the regex match's own position |
| DateFormatting.StepRewritesFirstRun | src/index.ts:113-118 | one turn of the loop (`Step`) replaces only the first run of its letter; the text before and after the run is unchanged, and a format without the letter is unchanged |
| DateFormatting.StepAt | src/index.ts:113-118 | a format laid out as prefix, run, rest becomes prefix, rendered field, rest, and later runs of the same letter stay literal |
| DateFormatting.StepWithoutLetter | src/index.ts:115-117 | when `exec` finds nothing, the format is left as it is |
| DateFormatting.FormatWithoutLetters | src/index.ts:113-119 | characters other than the pattern letters are never rewritten: a format without them is returned unchanged |
| DateFormatting.TurnAt | src/index.ts:113-118 | a turn on a format whose run of the turn's letter follows only digits rewrites exactly that run, to the field rendered to the run's length |
| DateFormatting.DigitsStay | src/index.ts:113-118 | once the format holds only digits, the remaining turns leave it unchanged |
| DateFormatting.RenderIsDigits | src/index.ts:104-116 | every inserted field is made of digits, so it holds no pattern letter for a later turn to match |
| DateFormatting.YmdLayout | src/index.ts:130 | `dateFormat('YYYYmmdd', d)` is the year rendered to 4 places, then the month and the day each rendered to 2 |
| DateFormatting.YmdIsDigits | src/index.ts:130 | the start-up stamp is at least eight digits, so `parseInt` reads all of it |
| DateFormatting.WideYearUnpadded | src/index.ts:116 | a year of four or more digits fills `YYYY` with no padding |
| DateFormatting.LayoutAsNumber | src/index.ts:130 | a year of at least 1000 in four places, then a month and a day below 100 in two places each, spell year·10000 + month·100 + day |
| DateFormatting.YmdAsNumber | src/index.ts:130 | for a year of at least 1000 and a month and day below 100, the stamp is the text of year·10000 + month·100 + day, and `parseInt` gives that number |
| DateFormatting.YmdLength | src/index.ts:130 | for a four-digit year and a month and day below 100, the stamp is exactly 8 digits |
| DateFormatting.StampFields | src/index.ts:116 | the year 2024 fills `YYYY` as "2024", and month 3 and day 7 are padded to "03" and "07" |
| DateFormatting.StampExample | src/index.ts:130 | any time on 7 March 2024 gives the stamp "20240307" |
| Gateway.BalanceOf | src/index.ts:213-224 | `balanceOf` never throws; on failure it returns 0, otherwise the balance divided by 10^decimal |
| Gateway.PayRequestBody | src/index.ts:239-248 | the posted body carries the order id, amount, name and description unchanged; a missing snapshot becomes '' |
| Gateway.RequestPay | src/index.ts:237-260 | `requestPay` never throws; it returns the gateway's `frontend`, or '' on failure |
| Gateway.CheckPay | src/index.ts:266-278 | `checkPay` never throws; it returns the gateway's status, or fails open with true |
| Gateway.UpdatePay | src/index.ts:284-294 | `updatePay` never throws; it returns the gateway's page, or '' on failure |
| Gateway.TransactionReply | src/index.ts:136-145 | `/transaction` always answers `{status: true}` with no data |
| Gateway.CreateOrderReply | src/index.ts:148-164 | `/createOrder` answers status true either way; it carries data exactly when requestPay returned, and that data is what it returned |
| Gateway.BalanceReply | src/index.ts:167-177 | `/balance` answers status true with the balance as data when balanceOf returned, and `{status: false}` with no data when it threw |
| Gateway.PayReply | src/index.ts:180-190 | `/pay` serves HTML either way: the page updatePay returned, or '' from the catch (Express sends a string body as text/html) |
| Gateway.CheckReply | src/index.ts:193-202 | `/check` answers with no data, and status true exactly when checkPay threw or returned true |
| Gateway.BalanceRoute | src/index.ts:167-177 | `/balance` always answers status true with a number; a gateway failure gives 0, never `{status: false}` |
| Gateway.PayRoute | src/index.ts:180-190 | `/pay` always serves text/html: the gateway's page, or an empty page on failure |
| Gateway.CheckRoute | src/index.ts:193-202 | `/check` answers status true exactly when the gateway failed or reported true |
| Gateway.CreateOrderRoute | src/index.ts:148-164 | `/createOrder` always answers status true with the frontend address as data, '' on failure |
| Gateway.FailureFallbacks | src/index.ts:136-202 | on gateway failure: `/check` gives true, `/balance` gives 0, `/createOrder` gives '', `/pay` gives an empty page, and `/transaction` always gives true |
| Gateway.CatchBranchesUnreachable | src/index.ts:148-202 | every route's reply is its try branch applied to its helper's result, and no helper throws; `/balance` and `/createOrder` never send what their catch would |
| Gateway.PayFallbackMatchesCatch | src/index.ts:180-190 | on gateway failure `/pay` serves the same empty HTML page its catch would |
| Gateway.BalanceExample | src/index.ts:218 | a raw 123450 at precision 2 is reported as 1234.5 |
| Relay.OrderIdInjective | src/index.ts:155 | under one day number, equal ids have equal counters |
| Relay.TodayNum | src/index.ts:129-130 | for a year of at least 1000 and a month and day below 100, `todayNum` is year·10000 + month·100 + day |
| Relay.OrderId | src/index.ts:155 | the id is all digits: the day number's text, then digits that read back as the counter |
| Relay.OrderIdDistinct | src/index.ts:155 | under one day number, different counters give different ids |
| Relay.IssuedIds | src/index.ts:129-155 | the i-th id issued is the day number followed by counter i + 2 |
| Relay.IssuedIdsDistinct | src/index.ts:152-155 | the ids issued by one server are pairwise distinct |
| Relay.IssuedIdShape | src/index.ts:155 | every id is the day prefix followed by digits that read back as its counter, so the counters strictly increase |
| Relay.FirstIdEndsInTwo | src/index.ts:129-155 | the first id issued is the day number followed by "2" |
| Relay.RelayServer.constructor | src/index.ts:129-130 | start-up sets the counter to 1, with nothing issued, and fixes `todayNum` as the start-up stamp read as a number |
| Relay.RelayServer.CreateOrder | src/index.ts:148-164 | the counter grows by exactly 1 whatever the gateway does; the posted id is `${todayNum}${orderNum}` and is appended to the issued ids; the reply is the `/createOrder` route's |
| Relay.ThreeOrders | src/index.ts:148-164 | three orders on a new server, the first during a gateway failure, get three distinct ids with counters 2, 3 and 4 |

## Left out

- Express wiring: `express.json()`, the static `public` directory, route registration and `app.listen` on port 9200. This is framework plumbing with no logic.
- The HTTP requests to the gateway at `http://localhost:9110`. Each is replaced by an `Outcome` input: a response body, or `Failed`. Malformed bodies that do not throw are not modelled, for example a missing `balance` that makes `parseInt` return NaN.
- Gateway.BalanceOf: models `parseInt(balance) / Math.pow(10, decimal)` as an exact division of reals. It leaves out floating-point rounding, the lenient prefix parsing of `parseInt`, and negative precisions.
- `new Date()` and local-time field extraction. The six fields are taken as natural numbers. `getFullYear` of a negative year is not modelled.
- Decimal.ParseDecimal: models `parseInt` only on non-empty strings of decimal digits, which is all it is applied to here. On the empty string it gives 0, where `parseInt` gives NaN. Float precision beyond 2^53 is not modelled.
- JavaScript's `$` patterns in `replace` replacement strings are not modelled. The replacement here is always digits.
- Relay.RelayServer: `orderNum` is an unbounded `nat`. In JavaScript it is a double: past 2^53, `orderNum++` no longer changes it, and the ids repeat. Distinctness of the issued ids (`IssuedIdsDistinct`) holds in the program only for fewer than 2^53 − 1 orders.
- `console.log` output, and any concurrency around `orderNum++`. The increment runs synchronously on a single-threaded event loop.
- The `TransactionBody`, `createPayBody` and `createPayResultBody` interfaces are modelled only as far as the relay reads them. The `/transaction` notice itself is not modelled, because it is only logged.
- Relay.RelayServer.CreateOrder: the gateway's outcome is an input chosen independently of the posted body. The model does not capture that a real gateway answers the request it received.
