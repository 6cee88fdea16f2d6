# Lead capture and PIX checkout handlers, in Dafny

This project models the serverless HTTP handlers of a small funnel. The funnel collects a
customer's details (a lead) and creates a PIX charge through the Blackcat payment gateway.
A gateway notification then marks the sale paid and reports it to UTMify. Customers can
upload a payment receipt, and an administrator can list the receipts or export them with
the leads as CSV.

Each handler is modelled on plain values. It is a function from the environment, the
request and what its collaborators answer to the reply, the rows written and the calls
made. The mutable pieces keep their imperative form:

- the module-level "table ready" flags are one class, `Tables.SchemaFlag`;
- the webhook's UPDATE statements are a loop over arrays of rows;
- each handler that keeps a table flag or updates rows has a `method` beside its specification function, proved equal to it.

JavaScript semantics the handlers rely on are written out in `Js`:

- JSON-like values and truthiness;
- `||`, `??` and `?.`;
- `String(v)`;
- `Number(s)`, which reads decimal literals, exponents and `Infinity` exactly as decimals;
- `Math.round(x * 100)`.

`Text` holds the string operations: `trim`, `\D` stripping, `split(/\s+/)[0]`, ASCII
upper-casing and decimal numerals. `Uri` implements `encodeURI`/`encodeURIComponent` over
UTF-8.

Modules and the files they model:

| module | file |
|---|---|
| `Amount`, `PixQr`, `Payment` | api/payment.js |
| `Webhook` | api/freepay/webhook.js |
| `Csv`, `Admin`, `Export` | api/comprovantes/export.js |
| `Admin`, `ReceiptList` | api/comprovantes/list.js |
| `LeadsSave` | api/leads/save.js |
| `Upload` | api/comprovantes/upload.php.js |
| `QrProxy` | api/qr.js |
| `PaymentStatus` | api/payment/status/status.php.js |
| `Tables` | the row types, the connection-string lookup of api/_db.js and the schema flags |

## Model

| member | source | states |
|---|---|---|
| Text.TrimStart | api/leads/save.js:46 | what `trimStart` removes is white space only, and the rest is a suffix that does not start with white space |
| Text.TrimEnd | api/leads/save.js:46 | what `trimEnd` removes is white space only, and the rest is a prefix that does not end with white space |
| Text.TrimSpec | api/leads/save.js:46 | `trim` keeps a slice of its input, with only white space cut on either side, and the result is unpadded |
| Text.TrimIdempotent | api/leads/save.js:46 | trimming twice is trimming once |
| Text.TrimNoSpace | api/qr.js:9 | a string without white space is its own trim |
| Text.TrimUnpadded | api/leads/save.js:46-49 | a string that neither starts nor ends with white space is its own trim |
| Text.TrimEmpty | api/leads/save.js:46-51 | trimming leaves nothing exactly when the text is all white space |
| Text.DigitsOnly | api/leads/save.js:45 | `replace(/\D/g, "")` keeps only digits, keeps every digit with its multiplicity, leaves an all-digit string as it is, and keeps one digit and drops one non-digit |
| Text.DigitsOnlyAppend | api/leads/save.js:45 | stripping distributes over concatenation, so with the one-character case the digits keep their order |
| Text.DigitsOnlyIdempotent | api/leads/save.js:45 | stripping non-digits twice is stripping once |
| Text.IndexOf | api/payment.js:121 | the first position holding the character, or -1 exactly when it does not occur |
| Text.ReplaceFirst | api/payment.js:121 | `replace(",", ".")` changes only the first comma and keeps the length and every other character |
| Text.Take | api/freepay/webhook.js:7 | `substring(0, n)` is a prefix of length `min(n, length)` |
| Text.FirstToken | api/qr.js:9 | the token is a prefix with no white space, followed by white space or the end |
| Text.ToUpperAscii | api/freepay/webhook.js:76 | upper-casing keeps the length |
| Text.NatToString | api/leads/save.js:56 | a numeral (the key an array element spreads under) is a non-empty run of digits |
| Text.NatToStringRoundTrip | api/payment.js:128 | a numeral reads back as the number it writes |
| Text.NatToStringInjective | api/leads/save.js:56 | distinct indexes have distinct numerals |
| Js.FirstTruthyIndex | api/freepay/webhook.js:78-85 | the position an or-chain takes its value from: every earlier operand is falsy, and it is truthy or the last |
| Js.FirstTruthyIsFirst | api/freepay/webhook.js:78-85 | an or-chain yields its first truthy operand, or the last operand when none is truthy |
| Js.TruthyChain | api/freepay/webhook.js:78-85 | an or-chain is truthy exactly when one of its operands is |
| Js.Unwrap | api/freepay/webhook.js:74 | the payload is `data[0]` when `data` is an array, else a truthy `data`, else the body itself |
| Js.RoundTimes100 | api/payment.js:122 | `Math.round(x * 100)` is NaN exactly when `x` is, and a whole number for a finite `x` |
| Js.NumeralToNumber | api/payment.js:128 | `Number` of a numeral is the integer it writes |
| Js.NegatedReading | api/payment.js:128 | a minus sign before digits is read as a negative sign |
| Js.IntegerToNumber | api/comprovantes/export.js:83 | `Number(String(i))` is `i` for every integer |
| Js.DecimalToNumber | api/payment.js:125 | `whole.frac` reads as the exact decimal of its digits divided by ten to the number of fraction digits |
| Js.NotANumber | api/payment.js:128-129 | a text whose trimmed form starts with a character no number starts with is NaN |
| Uri.Utf8 | api/payment.js:272 | one to four bytes, each below 256 |
| Uri.PercentBytes | api/payment.js:272 | three characters per byte, each '%' or an upper-case hex digit |
| Uri.Encode | api/payment.js:272 | every character of the output is safe, '%' or an upper-case hex digit |
| Uri.EncodeAppend | api/payment.js:272 | encoding works character by character: it distributes over concatenation |
| Uri.EncodeSafe | api/payment.js:272 | a string of safe characters is left as it is |
| Uri.ComponentHasNoDelimiter | api/payment/status/status.php.js:15 | `encodeURIComponent` output holds no '/', '?' or '#' |
| Tables.DbConfiguredMeans | api/_db.js:5-14 | the database counts as configured exactly when one of DATABASE_URL, POSTGRES_URL, POSTGRES_URL_NON_POOLING, DATABASE_URL_UNPOOLED is non-empty |
| Tables.IntegerColumn | api/leads/save.js:16 | an INTEGER column stores null and undefined as NULL, a number or signed decimal numeral only when it fits in 32 bits, and refuses booleans, objects, arrays and other text |
| Tables.NumeralColumn | api/payment.js:21 | the numeral `String(n)` of an integer is stored as that integer exactly when it fits in 32 bits |
| Tables.SchemaFlag.constructor | api/payment.js:8 | a freshly loaded module has not run its DDL |
| Tables.SchemaFlag.Ensure | api/payment.js:10-32 | once ready, the DDL is skipped and the table may be used; before that it runs (one more attempt) and the flag is set exactly when it succeeds |
| Amount.NormalizeAmountToCents | api/payment.js:119-136 | a finite result of the heuristic is a whole number of centavos |
| Amount.NumberToCents | api/payment.js:128-135 | the numeric branch yields whole centavos |
| Amount.AmountAcceptedMeans | api/payment.js:140 | the amount check refuses exactly NaN, minus infinity and values below 100 |
| Amount.IntegerAmount | api/payment.js:128-135 | an integer n <= 1000 becomes 100·n centavos and a larger one is kept as centavos |
| Amount.NumeralAmount | api/payment.js:124-135 | a digit string without separator is treated like the integer it writes |
| Amount.SeparatorToPoint | api/payment.js:124-125 | the first ',' or '.' of a decimal string becomes the point |
| Amount.DecimalAmount | api/payment.js:124-126 | a decimal string is read as reais: `Math.round` of its exact value times 100 |
| Amount.ExactDecimalAmount | api/payment.js:124-126 | a decimal string with at most two fraction digits gives exactly its centavos |
| Amount.DecimalCents | api/payment.js:125-126 | reais with at most two decimals times 100 is exact |
| Amount.RoundWholeCents | api/payment.js:126 | rounding a value with at most two decimals, times 100, loses nothing |
| Amount.FixedAmountFallback | api/payment.js:116 | with no amount in the body the configured amount applies, else "64.73" |
| Amount.FallbackAmount | api/payment.js:120-123 | an absent amount (undefined, null, "") is the fallback text read as reais |
| Amount.NumeralReais | api/payment.js:121-122 | a whole-reais numeral as the fallback gives 100 times its value |
| Amount.ConfiguredNumeralIsReais | api/payment.js:116-123 | a configured FIXED_AMOUNT of n (no separator) charges 100·n centavos, unlike the same n in the body when n > 1000 |
| Amount.ExactReais | api/payment.js:121-122 | the fallback text with at most two decimals gives exactly its centavos |
| Amount.DefaultAmountValue | api/payment.js:116 | the literal default "64.73" is 6473 centavos |
| Amount.DefaultAmountSpelled | api/payment.js:116 | the default amount is the decimal string 64.73 |
| Amount.DefaultAmountCents | api/payment.js:116-123 | with no amount anywhere the charge is 6473 centavos |
| Amount.NonNumericAmount | api/payment.js:128-129 | an object, or a text no number starts with, gives 0 centavos and is refused |
| Amount.InfinityAmount | api/payment.js:124-129 | "Infinity" is not finite and gives 0 |
| Amount.AcceptedAmountsAreAtLeastOneReal | api/payment.js:119-145 | an accepted amount is plus infinity or a whole number of at least 100 centavos |
| Amount.WholeAccepted | api/payment.js:140-145 | a whole number (or plus infinity) passes the check exactly when it is at least 100 |
| PixQr.NormalizeQrUrl | api/payment.js:267-273 | "" stays ""; an http value is `encodeURI`d; a value without scheme or '/' is kept |
| PixQr.NormalizeQrUrlAddsScheme | api/payment.js:269-272 | a schemeless value with a '/' gets "https://" and is encoded |
| PixQr.EncodeSafePrefix | api/payment.js:270-272 | encoding "https://" + v leaves the scheme as it is |
| PixQr.QrImage | api/payment.js:274-284 | data-URI and http values are kept; "base64,…" gets "data:image/png;"; base64-looking text gets "data:image/png;base64," and is trimmed |
| PixQr.PixQrWithPrefix | api/payment.js:256-284 | a falsy QR value gives ""; a non-empty string gives its normalised image value; a truthy non-string one throws |
| PixQr.QrImageShape | api/payment.js:274-284 | the result is a data URI, an http URL, or the value itself when it has no '/' |
| PixQr.QrImageIdempotent | api/payment.js:274-284 | normalising a normalised QR value changes nothing |
| PixQr.PixQrWithPrefixIdempotent | api/payment.js:274-284 | the same for the whole `pixQrWithPrefix` conditional |
| Payment.ParsedBody | api/payment.js:90-96 | a body that can be destructured is neither null nor undefined |
| Payment.CustomerFromBody | api/payment.js:97-99 | the body's `customer` when it is an object, else null |
| Payment.ValidField | api/payment.js:104-107 | `(a ?? b)?.toString().trim()` is undefined exactly when both are nullish, and is otherwise the trimmed text of `a` unless `a` is nullish, then of `b` |
| Payment.BlankShadowsFallback | api/payment.js:104-109 | a white-space-only top-level value shadows the customer object's and reads as "", which is not filled in |
| Payment.TitleOf | api/payment.js:117 | the item title is always truthy |
| Payment.Render | api/payment.js:62-323 | each answer is written with its own status code |
| Payment.CreatedShowsQrTwice | api/payment.js:306-314 | a 200 carries the same QR value under `qr_code` and `pix_qr_code`, and the status |
| Payment.Decide | api/payment.js:64-145 | the request goes on exactly when it is a POST, both credentials are set, the body reads, name and e-mail are filled and the amount is accepted; otherwise it gets an early answer |
| Payment.CredentialsFirst | api/payment.js:76-88 | a missing API key answers first, then a missing postback URL, whatever the body holds |
| Payment.NameAndEmailBeforeAmount | api/payment.js:109-145 | name and e-mail are checked before the amount |
| Payment.Admit | api/payment.js:62-145 | a refused request gets one of the early answers |
| Payment.AdmitMeans | api/payment.js:64-145 | the gates pass exactly when the request is a POST, both credentials are set, the body reads, name and e-mail are filled in and the amount is at least one real |
| Payment.UnnamedRefused | api/payment.js:109-114 | with both credentials set, a readable body whose name is not filled in is answered `MissingNameOrEmail` (400) |
| Payment.BlankNameRefused | api/payment.js:104-114 | a body with `nome: ""` and `customer.name: "Ana"` is refused with `MissingNameOrEmail`, since `??` never reaches the customer's name |
| Payment.CustomerOf | api/payment.js:147-152 | the posted phone and tax id hold only digits |
| Payment.DocumentType | api/payment.js:169 | "cnpj" exactly when the tax id is longer than 11 digits, else "cpf" |
| Payment.ObjectOrEmpty | api/payment.js:157 | an object is kept, anything else becomes `{}` |
| Payment.TrackingOf | api/payment.js:154-167 | the three cases of the tracking normaliser: tracking object, tracking string, body-level utm/src with the referer as last source |
| Payment.AmountJson | api/payment.js:171 | a whole amount is posted as its number and a non-finite one as null |
| Payment.WithOptional | api/payment.js:201-205 | an undefined utm value is left out of the posted JSON |
| Payment.SaleOf | api/payment.js:170-206 | the sale posts the normalised amount and customer |
| Payment.SaleDocument | api/payment.js:182-190 | the posted document is the digits-only tax id, typed "cnpj" exactly when it is longer than 11 digits |
| Payment.TextColumnOfString | api/payment.js:43-54 | a string column bound from a string is that string |
| Payment.AmountColumn | api/payment.js:21 | a reply's amount is stored as the INTEGER column takes it; the handler's own centavos are stored when they fit in 32 bits, a falsy one as NULL, and an infinite one is refused |
| Payment.ChargedParam | api/payment.js:300 | the response lead's amount is the reply's when truthy, else the handler's centavos |
| Payment.LeadRow | api/payment.js:38-56 | a row exists exactly when the INTEGER column takes the amount; it keeps the lead's source, transaction id, status and tracking and holds the stored amount |
| Payment.Saved | api/payment.js:34-60 | `saveLead` inserts exactly one row when the database is configured and answers and the amount fits its column, nothing otherwise (the failure is swallowed) |
| Payment.FieldsOf | api/payment.js:247-262 | `txData` is the unwrapped payload, and the PIX text and QR value fall back to "" |
| Payment.FieldsAreChains | api/payment.js:248-262 | the id is the first truthy of `transactionId`, `id`, `transaction_id`, `txid`; the PIX text of `paymentData.copyPaste`, `paymentData.qrCode`, `pix_code`, `qr_code`, ""; the QR value of `paymentData.qrCodeBase64`, `paymentData.qrCode`, `pix_qr_code`, `qr_code_image`, `qr_code`, "" |
| Payment.ChainPicksFirst | api/payment.js:248-262 | a chain of logical ors is truthy exactly when a candidate is, then takes the first truthy candidate, else the last one |
| Payment.GatewayFieldsAreFirstTruthy | api/payment.js:248-262 | each field read from the reply is its first truthy candidate in source order; otherwise the id is `txid` and the PIX text and QR value are "" |
| Payment.StatusOf | api/payment.js:311 | the status defaults to "PENDING" |
| Payment.Settle | api/payment.js:274-314 | an OK reply answers 200 exactly when the QR value normalises and the id and PIX text are truthy, with those values and the response lead |
| Payment.Respond | api/payment.js:226-291 | a thrown fetch, a refused status or an incomplete reply stops the checkout; otherwise the reply is settled |
| Payment.Proceed | api/payment.js:208-314 | past the gates the sale is posted and the request lead comes first among the rows |
| Payment.Payment | api/payment.js:62-324 | the sale is posted exactly when the gates pass; a refused request saves nothing; no row is saved without a reachable database |
| Payment.IncompleteReplySavesRequestOnly | api/payment.js:286-291 | an OK reply without id or PIX text answers 502 and saves only the request lead |
| Payment.CreatedRun | api/payment.js:210-314 | a 200 needs an OK reply with id, PIX text and a usable QR value; the rows are the request lead then the response lead, each saved when the database answers and its amount fits, the second carrying the gateway's id |
| Payment.RequestLeadStored | api/payment.js:210-223 | for an admitted amount the request lead is stored exactly when its centavos fit in 32 bits; an infinite amount passes the gate but its lead is never stored |
| Payment.SaveLead | api/payment.js:34-60 | `saveLead` with its table flag inserts what `Saved` says, sets the flag once the database answers and runs no DDL once the flag is set |
| Payment.ServePayment | api/payment.js:62-324 | the handler step by step gives the answer, rows and sale of `Payment`; the flag is set once a save reached the database, and a set flag stays set with no further DDL |
| Webhook.IdSources | api/freepay/webhook.js:78-85 | the id chain has six sources and the fallback "" |
| Webhook.IdIsFirstTruthySource | api/freepay/webhook.js:78-85 | the id is the first truthy source, and "" when none is truthy |
| Webhook.PaidStatusIgnoresCase | api/freepay/webhook.js:75-89 | the status is compared after upper-casing: "paid" counts |
| Webhook.EventIsCaseSensitive | api/freepay/webhook.js:77-89 | the event is compared exactly: "Transaction.Paid" alone does not count |
| Webhook.TypeStandsInForEvent | api/freepay/webhook.js:77-89 | without `event`, `type` stands in for it |
| Webhook.Updated | api/freepay/webhook.js:93-94 | an UPDATE keeps the number of rows |
| Webhook.PaidLeadsEffect | api/freepay/webhook.js:93 | every lead with the id gets "PAID", no other column changes, rows with other ids stay as they were |
| Webhook.PaidReceiptsEffect | api/freepay/webhook.js:94 | likewise every receipt with the id gets "paid" |
| Webhook.UpdatedIdempotent | api/freepay/webhook.js:93-94 | an UPDATE with an idempotent row rewrite is idempotent |
| Webhook.UpdatedCommute | api/freepay/webhook.js:93-94 | UPDATEs whose row rewrites commute, commute |
| Webhook.PaidTwice | api/freepay/webhook.js:93-94 | marking a transaction paid twice is marking it once |
| Webhook.PaidInEitherOrder | api/freepay/webhook.js:93-94 | notifications for two transactions may be applied in either order |
| Webhook.UpdateRows | api/freepay/webhook.js:93-94 | the in-place loop leaves the array as the UPDATE's table |
| Webhook.LastMatch | api/freepay/webhook.js:49-61 | the lead looked up is the latest with the id, or none when no row has it |
| Webhook.FormatUtcDateOfIso | api/freepay/webhook.js:5-8 | on an ISO instant the date, a space and the time to the second: 19 characters with no 'T' |
| Webhook.OrNull | api/freepay/webhook.js:126-132 | `v`-or-null keeps a truthy value and is null exactly for a falsy one |
| Webhook.TrackingParameters | api/freepay/webhook.js:125-133 | exactly the keys src, sck, utm_source, utm_campaign, utm_medium, utm_content, utm_term |
| Webhook.TrackingParametersTruthyOrNull | api/freepay/webhook.js:125-133 | every parameter is a truthy value or null |
| Webhook.TrackingParameterValue | api/freepay/webhook.js:99-133 | for any tracking, each parameter is its first truthy source (tracking then `utm` for src and sck, `utm_source` then `source`, else the `utm` key), and null exactly when no source is truthy |
| Webhook.UtmSourceFallback | api/freepay/webhook.js:128 | for any tracking, a falsy `utm.utm_source` gives `utm.source` or null |
| Webhook.NoTrackingAllNull | api/freepay/webhook.js:99-133 | a lead without tracking reports every parameter as null |
| Webhook.OrderOf | api/freepay/webhook.js:102-135 | without a lead the order carries the defaults (empty name, null phone, price 0, the fixed product name); with one, its creation date formatted |
| Webhook.CommissionIsTotal | api/freepay/webhook.js:23-27 | no gateway fee, a commission equal to the total, which is also the product's price |
| Webhook.Report | api/freepay/webhook.js:10-47 | the report is sent exactly when a token is configured |
| Webhook.Render | api/freepay/webhook.js:63-143 | 405, 500 or 200, with `success` true only for the acknowledgement |
| Webhook.Webhook | api/freepay/webhook.js:63-143 | a failed notification changes no receipt and reports nothing; leads change only with a reachable database, and a 500 after a change means the receipts UPDATE threw; the tables keep their size |
| Webhook.IgnoredNotice | api/freepay/webhook.js:89-138 | a notification that is not paid, or names no id, is acknowledged and changes nothing |
| Webhook.PaidNotice | api/freepay/webhook.js:89-95 | a paid notification with an id marks the id's leads; when the receipts UPDATE succeeds it marks the receipts and is acknowledged, otherwise it answers 500 with the receipts unchanged and nothing reported |
| Webhook.RedeliveryChangesNothing | api/freepay/webhook.js:89-95 | delivering the same notification again leaves the tables as the first delivery left them |
| Webhook.EmptyArrayIdMatchesBlankRows | api/freepay/webhook.js:78-93 | an id sent as `[]` is truthy but reads as "", so it marks every lead stored without a transaction id |
| Webhook.HandleWebhook | api/freepay/webhook.js:63-143 | the handler in place on arrays, one UPDATE after the other, gives the answer, tables and report of `Webhook` |
| Csv.Doubled | api/comprovantes/export.js:59 | doubling quotes never shortens the text |
| Csv.Escaped | api/comprovantes/export.js:58-61 | a field needing no quotes is written as it is, otherwise between quotes |
| Csv.CsvEscape | api/comprovantes/export.js:56 | null and undefined are written as "" |
| Csv.CsvEscapeIsEscapedCell | api/comprovantes/export.js:55-62 | `csvEscape` is the quoting of the cell's text |
| Csv.CarriageReturnNotQuoted | api/comprovantes/export.js:58 | a lone carriage return does not cause quoting |
| Csv.ReadQuotedField | api/comprovantes/export.js:58-60 | a quoted field reads back, quotes stripped and `""` collapsed, as the original text |
| Csv.ReadPlainField | api/comprovantes/export.js:61 | an unquoted field reads back as itself |
| Csv.ReadEscapedField | api/comprovantes/export.js:55-62 | every escaped field reads back as the original text |
| Csv.EscapeAll | api/comprovantes/export.js:107 | each field of a line escaped, in order |
| Csv.ReadEscapedLine | api/comprovantes/export.js:107 | a line of escaped fields joined by ',' reads back as those fields |
| Csv.Lines | api/comprovantes/export.js:105-109 | one line per record |
| Csv.ReadWritten | api/comprovantes/export.js:105-111 | records written as lines joined by "\n" read back as the records |
| Csv.RowLines | api/comprovantes/export.js:106-108 | one line per row, in order |
| Csv.Cells | api/comprovantes/export.js:107 | one cell per column, in column order |
| Csv.RowCells | api/comprovantes/export.js:106-107 | each row's cells, in row order |
| Csv.ColumnsUnquoted | api/comprovantes/export.js:92-103 | no header name needs quoting |
| Csv.LineOfCells | api/comprovantes/export.js:107 | a row's line is its cells escaped and joined by ',' |
| Csv.CsvTextIsWritten | api/comprovantes/export.js:105-111 | the document is the header and the rows' cells, each record escaped and joined |
| Csv.CsvTextReadsBack | api/comprovantes/export.js:92-111 | read back, the document is the header and one record per row with one field per column, whatever the cells hold |
| Csv.ExportReadsBack | api/comprovantes/export.js:92-111 | the export reads back as its ten column names and each row's ten cells |
| Admin.AuthorizedMeans | api/comprovantes/export.js:74-79 | with no ADMIN_TOKEN every caller passes; with one, exactly the header token, else the query token, equal to it |
| Admin.LimitCapped | api/comprovantes/export.js:83 | `Math.min(..., cap)` never exceeds the cap |
| Admin.LimitDefault | api/comprovantes/list.js:46 | without a `limit` parameter the default applies |
| Admin.LimitOfInteger | api/comprovantes/list.js:46 | any integer parameter, zero included, is taken up to the cap, with no lower bound |
| Admin.ListingGate | api/comprovantes/list.js:30-43 | GET, then the database, then the admin token: a request passes exactly when all three hold |
| Admin.RefusalResponse | api/comprovantes/list.js:30-43 | 405, 500 and 403 for the three refusals |
| Admin.LimitRows | api/comprovantes/list.js:46-50 | the bound `LIMIT` is taken when it is a whole number of at least zero |
| Admin.LimitRowsCapped | api/comprovantes/list.js:46-50 | a query that runs reads at most `cap` rows |
| Admin.LimitRowsDefault | api/comprovantes/list.js:46-50 | without a `limit` parameter the query reads the default number of rows |
| Admin.FirstRows | api/comprovantes/list.js:47-50 | `LIMIT n` keeps a prefix of at most n rows, all of them when there are fewer |
| Export.Render | api/comprovantes/export.js:111-118 | a document goes out as 200 with the CSV text; a failure is 500 |
| Export.ExportRun | api/comprovantes/export.js:64-119 | the export is refused exactly when the gate refuses it |
| Export.ExportDocument | api/comprovantes/export.js:83-114 | a document holds the header and at most 5000 of the newest rows, 500 without `limit`, each read back as its ten cells |
| Export.HandleExport | api/comprovantes/export.js:64-119 | with its two table flags the handler answers as `ExportRun`; a refused request runs no DDL, a document means both tables are ready, and a set flag stays set with no further DDL |
| ReceiptList.Render | api/comprovantes/list.js:52-56 | a listing is 200 with the rows under `data`; a failure is 500 |
| ReceiptList.ListRun | api/comprovantes/list.js:28-57 | the listing is refused exactly when the gate refuses it |
| ReceiptList.ListingBounded | api/comprovantes/list.js:46-52 | a listing holds at most 200 of the newest receipts, and 50 without `limit` |
| ReceiptList.HandleList | api/comprovantes/list.js:28-57 | with its table flag the handler answers as `ListRun`; a refused request runs no DDL, a listing means the table is ready, and a set flag stays set with no further DDL |
| LeadsSave.OrText | api/leads/save.js:64-77 | a falsy value takes the default and a non-empty string is kept |
| LeadsSave.DigitsOf | api/leads/save.js:45 | cpf and phone hold only digits |
| LeadsSave.TrimmedOf | api/leads/save.js:46-49 | names and e-mail are unpadded |
| LeadsSave.FormOf | api/leads/save.js:45-49 | cpf and phone are digits only; nome, email and nome_mae are trimmed |
| LeadsSave.DigitsOnlyEmpty | api/leads/save.js:45 | stripping non-digits leaves nothing exactly when there was no digit |
| LeadsSave.InsufficientMeans | api/leads/save.js:45-53 | a lead is refused exactly when cpf and phone hold no digit and name and e-mail are blank; the mother's name plays no part |
| LeadsSave.Spread | api/leads/save.js:56 | `{...v}` is an object's fields, an array's items under their indexes and nothing else, and `{}` otherwise |
| LeadsSave.MergedTracking | api/leads/save.js:55-56 | the stored tracking is the body's tracking object (or `{}`) with every key kept and `nome_mae` set to the trimmed name |
| LeadsSave.AmountParam | api/leads/save.js:69 | a falsy `amount_cents` is bound as null, a truthy one as itself |
| LeadsSave.LeadOf | api/leads/save.js:58-77 | the row carries the normalised fields, the merged tracking and the amount as its column stores it |
| LeadsSave.Defaults | api/leads/save.js:64-72 | falsy values take the defaults: source "funnel", title "Lead Funil", transaction id "", status "LEAD" |
| LeadsSave.Render | api/leads/save.js:31-83 | 200, 405, 500, 400, 500 and 200 for the six answers |
| LeadsSave.SaveLeadRun | api/leads/save.js:29-84 | at most one row is inserted, exactly when the answer is success, which needs a configured, reachable database; its amount is NULL or a 32-bit integer |
| LeadsSave.SaveGates | api/leads/save.js:31-53 | OPTIONS, then the method, then the database, then the body; a lead is refused only when all four fields are empty |
| LeadsSave.AmountColumnDecides | api/leads/save.js:58-82 | past the gates with the database up, the lead is saved exactly when the INTEGER column takes its amount, holding the stored value; otherwise the INSERT throws and the answer is 500 with no row; a missing amount is stored as NULL |
| LeadsSave.HandleSave | api/leads/save.js:29-84 | with its table flag the handler answers and inserts as `SaveLeadRun`; a refused lead runs no DDL, a saved one leaves the flag set, and a set flag stays set with no further DDL |
| Upload.FieldValue | api/comprovantes/upload.php.js:32-35 | an array's first element, else the value itself, with "" for a falsy one |
| Upload.FieldValueOfNothing | api/comprovantes/upload.php.js:32-35 | a missing or empty field is stored as "" |
| Upload.SafeName | api/comprovantes/upload.php.js:70 | the sanitised name holds only `[a-zA-Z0-9._-]` and has one character per UTF-16 unit of the original |
| Upload.SafeNameKeepsAllowed | api/comprovantes/upload.php.js:70 | a name of allowed characters is kept |
| Upload.SafeNameIdempotent | api/comprovantes/upload.php.js:70 | sanitising twice is sanitising once |
| Upload.SafeNamePositions | api/comprovantes/upload.php.js:70 | within the BMP: same length, allowed characters kept and every other one replaced by '_' |
| Upload.Timestamp | api/comprovantes/upload.php.js:71 | every ':' and '.' becomes '-', and nothing else changes |
| Upload.BlobStaysInFolder | api/comprovantes/upload.php.js:74 | the blob name is "comprovantes/" followed by a name with no '/' |
| Upload.AfterLastSlash | api/comprovantes/upload.php.js:102 | the basename is a suffix with no '/' |
| Upload.StripSlashes | api/comprovantes/upload.php.js:102 | trailing slashes are ignored by `basename` |
| Upload.BasenameOfBlobName | api/comprovantes/upload.php.js:74-102 | the stored file name is the blob name without the folder |
| Upload.LastSegment | api/comprovantes/upload.php.js:102 | the basename of a folder path and a name without '/' is the name |
| Upload.OriginalName | api/comprovantes/upload.php.js:69 | a missing original filename is "comprovante" |
| Upload.Render | api/comprovantes/upload.php.js:39-113 | 405, 400, 200 with the URL, and 500 for every other failure |
| Upload.UploadHandler | api/comprovantes/upload.php.js:37-115 | a blob is written only on the way to success or a late failure; a row is inserted exactly on success, pointing at the blob's URL |
| Upload.UploadGates | api/comprovantes/upload.php.js:39-67 | method, blob token, Postgres and file in that order, and a refused upload writes neither a blob nor a row |
| Upload.StoredUpload | api/comprovantes/upload.php.js:64-110 | a complete upload is acknowledged with the blob URL, its blob asked for under the timestamped sanitised name, and one row inserted |
| Upload.OrphanBlob | api/comprovantes/upload.php.js:76-108 | with the database down the blob stays stored and no row points at it |
| Upload.HandleUpload | api/comprovantes/upload.php.js:37-115 | with its table flag the handler answers as `UploadHandler`; the DDL runs only once a blob is stored, a stored receipt means the table is ready, and a set flag stays set with no further DDL |
| QrProxy.Target | api/qr.js:9 | the target is a prefix of the trimmed value with no white space, ended by white space or the end |
| QrProxy.TargetOfPadded | api/qr.js:9 | padding before the URL and anything after the first white space are dropped |
| QrProxy.TrimOfPadded | api/qr.js:9 | trimming a padded text cuts the padding and trims only what follows the URL |
| QrProxy.Render | api/qr.js:4-34 | a failed fetch keeps the upstream status; 400 only for a missing or invalid URL (or an upstream 400) |
| QrProxy.Relay | api/qr.js:19-30 | a non-OK status is passed through, a missing content type is PNG, a thrown fetch is 500 |
| QrProxy.FromRaw | api/qr.js:8-30 | a non-string value is a 500 and nothing is fetched; a first token without an http(s) scheme or that `URL` refuses is "Invalid url"; otherwise exactly that token is fetched and the upstream answer relayed |
| QrProxy.QrHandler | api/qr.js:3-34 | "Missing url" exactly when `u` is falsy; otherwise the first element of an array, or the value itself, decides as in `FromRaw`: 500, "Invalid url", or a fetch of its first token |
| QrProxy.FetchedTarget | api/qr.js:8-19 | what is fetched has an http(s) scheme, is accepted by `URL` and holds no white space |
| QrProxy.ArrayUsesFirst | api/qr.js:8 | an array of values behaves as its first element |
| PaymentStatus.BaseUrl | api/payment/status/status.php.js:1 | the configured gateway address, else the public one |
| PaymentStatus.IdValue | api/payment/status/status.php.js:12 | `id`, else `transaction_id`, else "" |
| PaymentStatus.SaleId | api/payment/status/status.php.js:12 | the id is trimmed |
| PaymentStatus.BlankIdIsEmpty | api/payment/status/status.php.js:12-13 | a blank `id` is not replaced by `transaction_id` and trims to "" |
| PaymentStatus.StatusUrlShape | api/payment/status/status.php.js:15 | the URL is base + "/sales/" + one encoded segment + "/status" |
| PaymentStatus.Reported | api/payment/status/status.php.js:28-31 | a success report has `success` true and a truthy status |
| PaymentStatus.ReportedStatus | api/payment/status/status.php.js:29 | the status is the transaction's, else the envelope's, else `payment_status`, else "PENDING" |
| PaymentStatus.EmptyDataArray | api/payment/status/status.php.js:28-30 | an empty `data` array reports the envelope itself as the transaction |
| PaymentStatus.Render | api/payment/status/status.php.js:30-38 | a success is 200 with the report; a refusal is 502 carrying the upstream status |
| PaymentStatus.Relay | api/payment/status/status.php.js:26-40 | an OK answer reports, a non-OK one is refused with its status, a thrown fetch is 500 |
| PaymentStatus.StatusHandler | api/payment/status/status.php.js:3-42 | 405, then missing key, then empty id; the gateway is called exactly when all pass, at the status URL with the key |

## Left out

- Network calls: the gateway, UTMify and QR fetches are inputs. These are the `GatewayReply`/`Upstream` values and `parses` (for `new URL`). The UTMify answer is ignored, as the source swallows it.
- Storage libraries: `pg`, `@vercel/postgres`, `@vercel/blob`, `formidable` and `fs`. The database is a "configured" flag plus a `dbUp` flag. A blob store call is an `Option<Blob>`, with the file read folded into it. Tables are sequences of rows, and an insert is the row it returns.
- SQL ordering: `ORDER BY created_at DESC` is a parameter, the rows in that order. The webhook's lead lookup takes the last matching row in insertion order.
- SQL coercions: Postgres's text coercion of objects and arrays into TEXT columns is not modelled; the INTEGER column `amount_cents` is (`Tables.IntegerColumn`). The DDL is modelled only as the once-flag. The upload's own DDL has no `status` column: a receipt starts with no status, and the webhook's `comprovantes` UPDATE failing on such a table is the input `receiptsUp`.
- Tables.IntegerColumn: refuses a numeral with surrounding white space, and the underscores and 0x/0o/0b prefixes that Postgres 16 accepts, because the accepted syntax varies with the server version. A fractional number cannot reach it, since body numbers are integers here.
- Dates: `new Date().toISOString()` is an input text. `new Date(date)` parsing is modelled only for ISO instants.
- JSON: `JSON.parse` is a function parameter that returns None where it would throw. `JSON.stringify` of the tracking object is the object itself.
- Floating point: numbers are exact decimals, so float rounding (for instance of "1.005") is not reproduced. `Number` does not read 0x/0o/0b prefixes (the model reads NaN). JSON numbers in a request body are integers: a fractional number such as `amount: 64.73` in the body is not modelled; decimal strings are.
- Text.ToUpperAscii: upper-cases only ASCII letters, because `toUpperCase` on other scripts needs Unicode tables. Its contract states only the length.
- Payment.Render: states only the status codes. The body texts are in the function, and the catch-all answer's exception message is not modelled.
- Error texts: exception messages are parameters or left out. This covers the status handler's `String(e?.message || e)`.
- Headers: Content-Type, Content-Disposition and Cache-Control on responses are not modelled. The QR image body is not modelled either.
- Upload size: `comprovante.size || 0` is stored as the size itself; a size of 0 gives the same number. An array-shaped `files.comprovante` is not modelled. The blob's content type is stated only on the success path.
- Logging, CORS plumbing and races on the schema flags are out of scope; the DDL is `IF NOT EXISTS`.
