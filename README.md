# MiniAd marketplace core in Dafny

A model of the backend and web-client core of a Telegram Mini-App marketplace. Advertisers post ad requests. Channel owners apply to them with their channels. An accepted application becomes a deal, which moves through creative drafting and approval, an escrow payment in TON, a scheduled post in the channel, and a check that the post stayed up. The deal then settles with a payout to the channel owner or a refund to the payer.

What is modelled:

- **Deal lifecycle and jobs.** The deal helpers (payment confirmation, publishing, marking posted, the aliveness check, settlement) are methods on one `Database` object. Its tables are maps from primary key to row. The three job queues are sequences of job records in a `Queues` object. The three workers are methods that report "retry" by returning `Threw`.
- **Outside services.** The TON blockchain and Telegram are function-typed parameters that return structured results. Payouts and refunds are appended to a `Ledger` log, so "exactly one transfer" is part of a contract. The clock (`now`) and generated UUIDs are inputs.
- **HTTP handlers.** The deal, creative, ad-request, channel, feedback and service-account login handlers are methods returning `Reply` (the success or error envelope with its HTTP status). Each contract states the guards in source order, the rows written, and that a refused request writes nothing.
- **Request bodies.** The zod request schemas are functions from the JSON body to the parsed value, or `None` when zod refuses it.
- **Pure helpers.** These are modelled with their inverses or reference definitions:
  - `transformBigInts`;
  - the response envelopes;
  - the base64 photo token over UTF-8;
  - the web client's `request` classification;
  - `URLSearchParams` and the ad-filter query string;
  - the dashboard's path↔page mapping and its router;
  - the username pattern;
  - channel username extraction;
  - language-statistics aggregation;
  - the weekday rotation.

Notes on the code:

- **Deal rows.** The code never inserts a deal. Accepting an application only moves the ad request to `in_progress` (apps/backend/src/routes/api/ads/handlers.ts:453-458). Deals therefore enter the model through `Schema.NewDeal`, built with the schema defaults.
- **Settlement.** `settleDeal` has no guard against a second call (apps/backend/src/routes/api/deals/helpers.ts:148-193). `DealFlow.SettleDeal` requires nothing of the deal's status, and its contract states the one transfer that each call appends. A repeated call therefore pays twice.
- **`reviewNote`.** The creative handlers read and write `reviewNote`, but the `deal_creatives` table has no such column (apps/backend/src/db/schema.ts:193-205). The creative row of the model has none either. An update drops a sent note, so a body carrying only a note has nothing to set and fails with 500. The listing selects the missing column and fails with 500 (see Findings).
- **TON interface.** The deal helpers call `checkReceived`, which the TON utility does not export. They also call `releaseFundsToOwner` with four arguments. The gateway is modelled as the deal helpers use it.
- **Escrow key.** The wallet handler stores a `privateKey` field of the generated wallet, which the TON utility returns as `mnemonic`. The generated keys are inputs of the model.
- **Admin rows.** The `channel_admins` table has no uniqueness constraint on (channel, user) (apps/backend/src/db/schema.ts:95-104). `syncNewAdminByOwner` inserts a row without checking for an existing one (apps/backend/src/routes/api/channels/helpers.ts:290-301). A user can therefore hold two rows for a channel, and the channel listings return one entry per row.

## Model

| member | source | states |
|---|---|---|
| JsText.Trim | apps/web/src/app/channels/new/page.tsx:70 | `trim()` removes only leading and trailing whitespace: the result starts and ends with a non-whitespace character or is empty |
| JsText.TrimIdempotent | apps/web/src/components/add-admin-sheet.tsx:34 | trimming a trimmed text changes nothing |
| JsText.IndexOf | apps/backend/src/routes/api/saccounts/helpers.ts:26 | the first position where the pattern occurs, or none when it occurs nowhere |
| JsText.ReplaceFirstAbsent | apps/backend/src/dash/lib/navigator.ts:6 | replacing a pattern that does not occur leaves the text as it is |
| JsText.JoinSplit | apps/backend/src/routes/api/channels/helpers.ts:152 | joining the pieces of a split with the separator gives back the text |
| JsText.SplitJoin | apps/backend/src/routes/api/channels/helpers.ts:152 | splitting a join of separator-free pieces gives back the pieces |
| JsText.LastSegmentIsSuffix | apps/backend/src/routes/api/channels/helpers.ts:152 | `split(sep).pop()` is the part of the text after its last separator, or all of it when there is none |
| JsText.LastSegmentAfterSeparator | apps/backend/src/routes/api/channels/helpers.ts:152 | a separator-free tail after a separator is the last segment |
| JsText.DigitsValueOfNatToString | apps/web/src/lib/utils.ts:30-33 | the decimal text of a number reads back as that number |
| JsText.NatToStringInjective | apps/web/src/lib/utils.ts:30-33 | different numbers have different decimal texts |
| JsText.ParseIntOfIntToString | apps/backend/src/routes/api/ads/handlers.ts:90-95 | `Number.parseInt` reads back any integer's decimal text, whatever non-digit text follows |
| JsText.ParseIntOfNonNumeric | apps/backend/src/routes/api/ads/handlers.ts:90-95 | a text that does not start with a sign, digit or whitespace parses to NaN |
| JsValues.PutGet | apps/web/src/lib/http.ts:81 | after setting a property, it reads as the new value and every other property as before |
| JsValues.GetSpread | apps/web/src/lib/http.ts:81-85 | in `{ ...base, ...extra }` a property reads from `extra` when it has it and from `base` otherwise |
| JsValues.Without | apps/backend/src/routes/api/channels/handlers.ts:433 | the rest of an object after taking one property out lacks that property and keeps every other |
| DealFlow.CheckBlockchainConfirmation | apps/backend/src/routes/api/deals/helpers.ts:18-34 | a missing payment, or one lacking either address, is "not received" without asking the chain; a payment with both addresses gets exactly the chain's answer for a transfer from the payer to the escrow address of its amount in nanotons |
| DealFlow.ConfirmedPayment | apps/backend/src/routes/api/deals/helpers.ts:40-47 | the confirmed payment row has status `confirmed`, the hash and the confirmation time, and every other column unchanged |
| DealFlow.UpdatePaymentStatus | apps/backend/src/routes/api/deals/helpers.ts:36-56 | the payment (when present) is confirmed and the deal (when present) becomes `scheduled`; the publish job is enqueued with delay `scheduledPostAt - now` exactly when the deal exists and that time is in the future, otherwise the call throws after the writes |
| DealFlow.ScheduleDeal | apps/backend/src/routes/api/deals/helpers.ts:48-55 | the deal write and the enqueue of `updatePaymentStatus`: a missing deal throws and enqueues nothing |
| DealFlow.PublishPost | apps/backend/src/routes/api/deals/helpers.ts:58-100 | success exactly when a post id is returned; no deal/channel/approved creative join row or no active session gives failure; success means the gateway sent an approved creative's content to the deal's channel and returned that message id |
| DealFlow.UpdateStatusAsPosted | apps/backend/src/routes/api/deals/helpers.ts:102-110 | the deal (when present) gets status `posted`, the post id and the time; nothing else changes |
| DealFlow.VerifyPostAliveness | apps/backend/src/routes/api/deals/helpers.ts:112-146 | true exactly when the deal and its channel exist, a session is active and the gateway returns the message without throwing |
| DealFlow.FindSettlementRow | apps/backend/src/routes/api/deals/helpers.ts:166-180 | the row found is the inner join application, ad request, channel, the deal's payment and its escrow wallet, or none when any part is missing |
| DealFlow.Recipient | apps/backend/src/routes/api/deals/helpers.ts:191 | completed pays the channel's wallet, cancelled refunds the payer's address; a null column gives `""` |
| DealFlow.SettledDeal | apps/backend/src/routes/api/deals/helpers.ts:152-160 | the settled deal has the outcome status and the time, and only the matching end time (`completedAt` or `cancelledAt`) is set |
| DealFlow.SettleDeal | apps/backend/src/routes/api/deals/helpers.ts:148-194 | a missing deal changes nothing; otherwise the deal is settled whatever its status, and only when the join row exists is the ad request given the outcome and exactly one transfer of the agreed price made to the recipient |
| DealFlow.OnPostAlivenessVerified | apps/backend/src/routes/api/deals/helpers.ts:196 | a missing deal changes nothing; otherwise the deal is settled as `completed` at `now`, and when the settlement row exists exactly one transfer of the agreed price goes from the escrow wallet to the channel's wallet address (`""` when it has none) |
| DealFlow.OnPostAlivenessFailed | apps/backend/src/routes/api/deals/helpers.ts:198 | a missing deal changes nothing; otherwise the deal is settled as `cancelled` at `now`, and when the settlement row exists exactly one transfer of the agreed price goes from the escrow wallet back to the payer's address (`""` when it has none) |
| JobQueue.PublishDelay | apps/backend/src/queue/index.ts:65-70 | a delay exists exactly when the publish time is in the future, and then it is positive and lands on that time |
| JobQueue.AfterAttempt | apps/backend/src/queue/index.ts:51-63 | a job that did not throw is finished; a throwing one is retried after the fixed backoff only while fewer attempts than `attempts` were made |
| JobQueue.PaymentRetryWindow | apps/backend/src/queue/index.ts:3-7 | the payment check is retried every 60 000 ms while fewer than 1440 attempts have been made, then given up |
| JobQueue.Queues.AddPaymentConfirmation | apps/backend/src/queue/index.ts:51-63 | exactly one "verify" job with the deal and payment ids and the 1440-attempt, 60 000 ms fixed-backoff options is appended |
| JobQueue.Queues.AddScheduledPost | apps/backend/src/queue/index.ts:65-73 | a publish time not in the future throws "Publish date must be in the future" and enqueues nothing; otherwise one "publish" job delayed by `publishAt - now` is appended |
| JobQueue.Queues.AddPostAlivenessCheck | apps/backend/src/queue/index.ts:75-81 | exactly one "check" job with the post and deal ids and a one-day delay is appended |
| Workers.PaymentConfirmationWorker | apps/backend/src/queue/queue-workers.ts:22-40 | unless the chain reports the transfer received with a non-empty hash the job throws and nothing changes; otherwise the payment row is confirmed with that hash and the deal marked `scheduled` exactly as `updatePaymentStatus` writes them; a missing deal or a posting time already passed throws, and a future posting time returns `confirmed: true` with exactly one publish job delayed until then |
| Workers.ScheduledPostingWorker | apps/backend/src/queue/queue-workers.ts:42-63 | a deal that cannot be published or no active session throws with the deal untouched and no check enqueued; when every approved creative of the deal is sent with a non-zero message id the job succeeds; on success the deal is marked `posted` with the id Telegram gave for one of its approved creatives, and exactly one aliveness check for that deal and post is enqueued |
| Workers.PostAlivenessWorker | apps/backend/src/queue/queue-workers.ts:65-81 | the result is `alive` exactly when the deal, its channel and an active session exist and Telegram finds the post; a missing deal changes nothing; otherwise the deal is settled as `completed` when alive and `cancelled` otherwise, with the same writes and single transfer as `settleDeal` |
| Gateways.ToNano | apps/backend/src/routes/api/deals/helpers.ts:33 | a whole amount of TON becomes a whole number of nanotons, 10^9 per TON |
| Gateways.Ledger.Release | apps/backend/src/routes/api/deals/helpers.ts:193 | one payout request with the escrow keys, the recipient and the amount is appended to the log |
| Schema.ParseDealStatus | apps/backend/src/db/schema.ts:151-159 | the stored text maps to the deal status of that name, and to nothing when no status has that name |
| Schema.DealStatusNames | apps/backend/src/db/schema.ts:151-159 | the deal-status enumeration has exactly seven values with pairwise distinct names, and each name reads back as its own status |
| Schema.DealStatusListed | apps/backend/src/db/schema.ts:151-159 | each deal status is one of the seven listed and its name reads back as itself |
| Schema.ParseCreativeStatus | apps/backend/src/db/schema.ts:186-191 | text maps to the creative status of that name, and to nothing outside the four names |
| Schema.ParseAdFormat | apps/backend/src/db/schema.ts:108 | text maps to the ad format of that name (`post`, `story`, `forward`), and to nothing otherwise |
| Schema.ParseAdRequestStatus | apps/backend/src/db/schema.ts:109-114 | text maps to the ad-request status of that name, and to nothing otherwise |
| Schema.ParseApplicationStatus | apps/backend/src/db/schema.ts:115-119 | text maps to the application status of that name, and to nothing otherwise |
| Schema.OutcomeNames | apps/backend/src/routes/api/deals/helpers.ts:148-188 | the outcome written to both the deal and its ad request (`completed` or `cancelled`) is a valid name in both enumerations, and the same name |
| Schema.NewDeal | apps/backend/src/db/schema.ts:161-182 | a deal inserted without status or duration starts `awaiting_creative` with a 24-hour minimum post duration and no post, completion or cancellation |
| Schema.NewCreative | apps/backend/src/db/schema.ts:193-205 | a creative inserted with only deal and content is version 1, `draft`, with an empty media list and no submission or review time |
| Schema.NewPayment | apps/backend/src/db/schema.ts:246-263 | a payment inserted without status is `pending`, with no transaction hash and no confirmation time |
| Schema.NewApplication | apps/backend/src/db/schema.ts:137-147 | an application row starts `pending` for the given request and channel |
| Schema.NewChannelAdmin | apps/backend/src/db/schema.ts:95-104 | an admin row inserted without role or source is an `owner` from `telegram` |
| Transform.TransformBigInts | apps/backend/src/utils/transform.ts:14-35 | the result holds no `bigint` at any depth; a `bigint` becomes the number of the same value; each array element is the transformed original element, in the same order; objects keep their property names in order; every other value is returned as is |
| Transform.TransformOfPlain | apps/backend/src/utils/transform.ts:14-35 | a value that holds no `bigint` is returned unchanged |
| Transform.TransformIdempotent | apps/backend/src/utils/transform.ts:14-35 | transforming a transformed value changes nothing |
| Transform.TransformGet | apps/backend/src/utils/transform.ts:27-33 | each property of a transformed object reads as the transformed value of the same property of the original |
| Responses.SuccessResponse | apps/backend/src/utils/responses.ts:1-7 | the success envelope has every property name once |
| Responses.ErrorResponse | apps/backend/src/utils/responses.ts:9-16 | the error envelope has every property name once |
| Responses.SuccessResponseFields | apps/backend/src/utils/responses.ts:1-7 | a property of `extra` overrides; otherwise `status` reads `"success"`, `data` reads the data and any other name is undefined |
| Responses.ErrorResponseFields | apps/backend/src/utils/responses.ts:9-16 | a property of `extra` overrides; otherwise `status` reads `"error"`, `message` the message, `stack` the stack and any other name is undefined |
| Helpers.ParseBody | apps/backend/src/utils/helpers.ts:3-9 | a body that is not valid JSON becomes the empty object; a valid one is returned as parsed |
| Db.Database.UpdateDeal | apps/backend/src/routes/api/deals/helpers.ts:48-55 | `update deals ... where id` replaces exactly that row and keeps the database's keys and uniqueness invariants |
| Db.Database.UpdatePayment | apps/backend/src/routes/api/deals/helpers.ts:40-47 | `update payments ... where id` replaces that row, keeping it on its deal so that a deal still has at most one payment |
| Db.Database.UpdateAdRequest | apps/backend/src/routes/api/deals/helpers.ts:186-189 | `update ad_requests ... where id` replaces exactly that row |
| Db.Database.UpdateCreative | apps/backend/src/routes/api/creatives/handlers.ts:270-274 | `update deal_creatives ... where id` replaces exactly that row |
| Db.Database.UpdateApplication | apps/backend/src/routes/api/ads/handlers.ts:437-441 | `update ad_applications ... where id` replaces exactly that row |
| Db.Database.UpdateChannel | apps/backend/src/routes/api/channels/handlers.ts:433-438 | `update channels ... where id` replaces that row and keeps its Telegram id, so `tg_id` stays unique |
| Db.Database.UpdateLoginFlow | apps/backend/src/routes/api/saccounts/handlers.ts:132-135 | `update tg_login_flows ... where id` replaces that row and keeps its storage key, so storage keys stay unique |
| Db.Database.NextId | apps/backend/src/db/schema.ts:138 | an identity column hands out a value no row of any table holds yet, one more each time |
| Db.Database.InsertEscrowWallet | apps/backend/src/routes/api/deals/handlers.ts:353-360 | the wallet is stored under a fresh identity, which the insert returns |
| Db.Database.InsertPayment | apps/backend/src/db/schema.ts:246-251 | a payment row is added for a deal that has none, since `payments.deal_id` is unique |
| Db.Database.InsertCreative | apps/backend/src/routes/api/creatives/handlers.ts:170-179 | the creative row is added under its new id and nothing else changes |
| Db.Database.InsertApplication | apps/backend/src/routes/api/ads/handlers.ts:352-358 | the application row is added under its new id and nothing else changes |
| Db.Database.DeleteAdRequest | apps/backend/src/db/schema.ts:137-141 | deleting a request removes it and, by the cascade on `ad_applications.ad_request_id`, exactly its applications; other applications are untouched |
| Db.Database.InsertChannelAdmin | apps/backend/src/routes/api/channels/helpers.ts:339 | the row is added under a fresh identity and nothing else changes; no (channel, user) check is made, since the table has no such key |
| Db.Database.DeleteChannelAdmin | apps/backend/src/routes/api/channels/handlers.ts:390-392 | `delete from channel_admins where id` removes exactly that row |
| Db.Database.InsertChannel | apps/backend/src/db/schema.ts:73-75 | a channel row is added for a Telegram id not yet stored, since `channels.tg_id` is unique |
| Db.Database.InsertLoginFlow | apps/backend/src/routes/api/saccounts/handlers.ts:37-47 | the login flow is added under a new id and an unused storage key (`storage_key` is unique) |
| Db.Database.InsertSession | apps/backend/src/routes/api/saccounts/handlers.ts:118-130 | the session is added under a new id and an unused storage key (`storage_key` is unique) |
| Db.Database.FindAdmin | apps/backend/src/routes/api/channels/handlers.ts:184-191 | finds an admin row of that user for that channel, and finds nothing exactly when the user has none |
| Db.Database.FindOwner | apps/backend/src/routes/api/feedback/handlers.ts:40-49 | finds an `owner`-role row of the channel, and nothing only when the channel has no owner row |
| Db.Database.FindPaymentOfDeal | apps/backend/src/routes/api/deals/handlers.ts:397-402 | finds the deal's payment, which is its only one, and nothing exactly when the deal has no payment |
| Db.Database.FindActiveSession | apps/backend/src/routes/api/deals/helpers.ts:78-82 | finds the storage key of an `active` session, and nothing exactly when no session is active |
| Db.Database.LatestCreative | apps/backend/src/routes/api/deals/handlers.ts:191-199 | finds a creative of the deal (a non-draft one when drafts are excluded) whose version no other such creative exceeds, and nothing exactly when there is none |
| Db.Database.CreativesByVersion | apps/backend/src/routes/api/creatives/handlers.ts:56-71 | lists every creative of the deal and no other, each once, highest version first |
| Db.Database.AdministersAny | apps/backend/src/routes/api/ads/handlers.ts:50-56 | true exactly when the user has an admin row for some channel |
| Db.Database.AppliedWithOwnChannel | apps/backend/src/routes/api/ads/handlers.ts:111-130 | true exactly when some channel the user administers has applied to the request |
| Db.Database.FindApplication | apps/backend/src/routes/api/ads/handlers.ts:337-346 | finds the application of that channel to that request, and nothing when there is none |
| Db.Database.DealOfAdRequest | apps/backend/src/db/schema.ts:161-166 | true exactly when some deal references an application to the request, which `deals.application_id` (no cascade) protects from deletion |
| Db.Database.FindChannelByTgId | apps/backend/src/routes/api/channels/handlers.ts:173-178 | finds the channel with that Telegram id, the only one, and nothing exactly when none has it |
| Ordering.MaxExists | apps/backend/src/routes/api/creatives/handlers.ts:161-166 | a deal with creatives has one whose version is the highest, which `order by version desc limit 1` returns |
| Ordering.ListDesc | apps/backend/src/routes/api/ads/handlers.ts:73-87 | the listing holds each row of the set exactly once (a permutation of it) and in descending order of the sort column |
| Ordering.Filter | apps/backend/src/routes/api/ads/handlers.ts:90-105 | `filter` keeps exactly the elements the predicate accepts, as a subsequence of its input (in their order), never more than it was given |
| Ordering.FilterCount | apps/backend/src/routes/api/ads/handlers.ts:90-105 | `filter` keeps every accepted element exactly as often as it occurs and no other element |
| Ordering.FilterDistinct | apps/backend/src/routes/api/ads/handlers.ts:90-105 | filtering a listing without repeated rows gives one without repeated rows |
| Zod.ZString | apps/backend/src/routes/api/saccounts/validators.ts:9 | a string schema accepts exactly a string whose JavaScript length (after `.trim()` when asked) lies within the bounds, and yields that (trimmed) string |
| Zod.ZOptional | apps/backend/src/routes/api/ads/validators.ts:5 | `.optional()` accepts `undefined` as absent and otherwise accepts exactly what the inner schema accepts |
| Zod.ZInt | apps/backend/src/routes/api/ads/validators.ts:6 | `z.number().int()` accepts exactly a whole number within the safe-integer range, at least the `.min`/`.positive()` bound when one is given, and yields that number |
| Zod.NumberOfText | apps/backend/src/routes/api/ads/validators.ts:36-37 | `Number` of blank query text is 0 |
| Zod.ZCoercePositiveInt | apps/backend/src/routes/api/ads/validators.ts:36-37 | a coerced parameter is accepted exactly when its numeric reading is a whole number from 1 to the largest safe integer, and yields that reading |
| Zod.NumberOfDigits | apps/backend/src/routes/api/ads/validators.ts:36 | plain decimal digits coerce to their value |
| Zod.CoerceOfNatToString | apps/backend/src/routes/api/ads/validators.ts:36-37 | a positive integer written in decimal coerces back to itself, and the empty parameter is refused |
| Zod.CoerceOfHexLiteral | apps/backend/src/routes/api/ads/validators.ts:36-37 | `"0x10"` is read in base 16 and accepted as 16 |
| Zod.CoerceOfExponentLiteral | apps/backend/src/routes/api/ads/validators.ts:36-37 | `"1e3"` is read with its exponent and accepted as 1000 |
| Zod.CoerceOfFractionExponentLiteral | apps/backend/src/routes/api/ads/validators.ts:36-37 | `"2.5e1"` is a fraction whose exponent makes it whole, and is accepted as 25 |
| Zod.CoerceRefusesHalf | apps/backend/src/routes/api/ads/validators.ts:36-37 | `"2.5"` is not a whole number and is refused |
| Zod.ZEnum | apps/backend/src/routes/api/ads/validators.ts:10 | `z.enum` accepts exactly one of the listed strings and yields it |
| Zod.ZStringArray | apps/backend/src/routes/api/creatives/validators.ts:5 | `z.array(z.string())` accepts exactly an array of strings and yields the same strings in order |
| Zod.UuidShape | apps/backend/src/routes/api/saccounts/validators.ts:4 | an accepted UUID has 36 characters in the 8-4-4-4-12 layout of hexadecimal digits and hyphens |
| Zod.ZUuid | apps/backend/src/routes/api/channels/validators.ts:9 | `z.uuid()` accepts exactly a string in UUID form and yields it |
| Zod.DaysInMonth | apps/backend/src/routes/api/deals/validators.ts:16 | every month has 28 to 31 days |
| Zod.DateTimeDay | apps/backend/src/routes/api/deals/validators.ts:16 | an accepted date-time names an existing day (February 29 only in a leap year), with a month from 1 to 12, and ends in `Z` |
| Zod.ZDateTime | apps/backend/src/routes/api/deals/validators.ts:16 | `z.string().datetime()` accepts exactly a UTC date-time string and yields it |
| ValidatorBasics.ZAdFormat | apps/backend/src/routes/api/ads/validators.ts:10 | accepts exactly the name of an ad format and yields the format of that name |
| ValidatorBasics.ZAdRequestStatus | apps/backend/src/routes/api/ads/validators.ts:23 | accepts exactly the name of an ad-request status and yields that status |
| ValidatorBasics.ZCreativeStatus | apps/backend/src/routes/api/creatives/validators.ts:12 | accepts exactly the name of a creative status and yields that status |
| ValidatorBasics.ZDealStatus | apps/backend/src/routes/api/deals/validators.ts:5-15 | accepts exactly the name of one of the seven deal statuses and yields that status |
| AdsValidators.ZCountDefault | apps/backend/src/routes/api/ads/validators.ts:6-7 | an absent count takes its default; a present one must be a whole number of at least 0 |
| AdsValidators.ParseCreateAdRequest | apps/backend/src/routes/api/ads/validators.ts:3-12 | accepted exactly when the body is an object with a string title of 1 to 200 characters, a string deadline, and optional description, language and guidelines strings, counts that are absent or whole numbers of at least 0, and an ad format that is absent or one of the three; every accepted field is the value sent, an absent count is 0 and an absent format is `post` |
| AdsValidators.CreateAdRequestDefaults | apps/backend/src/routes/api/ads/validators.ts:3-12 | a body with only a valid title and a deadline is accepted with every default filled in |
| AdsValidators.ParseCreateAdRequestOf | apps/backend/src/routes/api/ads/validators.ts:3-12 | any object whose only properties are a valid title and a deadline parses to the record with every default |
| AdsValidators.ParseUpdateAdRequest | apps/backend/src/routes/api/ads/validators.ts:14-24 | accepted exactly when every sent field meets the bounds of the create schema and a sent status is one of the four; each of the nine fields is present exactly when sent and then equals the value sent |
| AdsValidators.UpdateAdRequestEmpty | apps/backend/src/routes/api/ads/validators.ts:14-24 | the empty object is a valid update that sets nothing |
| AdsValidators.ParseApplyToAdRequest | apps/backend/src/routes/api/ads/validators.ts:26-28 | accepted exactly when `channelId` is a whole number of at least 1, yielding it |
| AdsValidators.BudgetParam | apps/backend/src/routes/api/ads/validators.ts:36-37 | an absent budget is no filter; a present one is accepted exactly when it coerces to a positive integer, and the accepted value is that coercion |
| AdsValidators.ParseAdRequestsQuery | apps/backend/src/routes/api/ads/validators.ts:34-40 | accepted exactly when a sent status and ad format are names of their enumerations, sent budgets coerce to positive integers and a sent language is non-empty; each accepted filter is the text or coerced number sent, and absent exactly when not sent |
| CreativesValidators.ParseCreateCreative | apps/backend/src/routes/api/creatives/validators.ts:3-6 | accepted exactly for an object with non-empty string `content` and `mediaUrls` absent or an array of strings; the content and the URLs, in order, are the values sent |
| CreativesValidators.ParseUpdateCreative | apps/backend/src/routes/api/creatives/validators.ts:8-15 | accepted exactly when sent content is a non-empty string, sent `mediaUrls` an array of strings, a sent status one of the four and a sent note a string; each field is present exactly when sent and then equals the value sent |
| CreativesValidators.UpdateCreativeExamples | apps/backend/src/routes/api/creatives/validators.ts:8-15 | `{}` is a valid update and a status outside the enumeration is refused |
| DealsValidators.ParseUpdateDeal | apps/backend/src/routes/api/deals/validators.ts:3-19 | accepted exactly when a sent status is one of the seven, a sent `scheduledPostAt` is a UTC date-time string and a sent duration is a whole number of at least 1; each field is present exactly when sent and then equals the value sent |
| DealsValidators.UpdateDealEmpty | apps/backend/src/routes/api/deals/validators.ts:3-19 | the empty object is a valid update that sets nothing |
| DealsValidators.ParseGetWalletForDeal | apps/backend/src/routes/api/deals/validators.ts:21-23 | accepted exactly when `userWallet` is a string of at least 10 characters, yielding it |
| SaccountsValidators.ParseFlowIdParam | apps/backend/src/routes/api/saccounts/validators.ts:3-5 | accepted exactly when the `flowId` path parameter is a UUID |
| SaccountsValidators.ParseStartFlowBody | apps/backend/src/routes/api/saccounts/validators.ts:8-10 | accepted exactly when the trimmed phone has 6 to 32 characters, yielding the trimmed phone |
| SaccountsValidators.ParseSubmitCodeBody | apps/backend/src/routes/api/saccounts/validators.ts:13-15 | accepted exactly when the trimmed code has 3 to 10 characters, yielding the trimmed code |
| SaccountsValidators.SubmitCodeTrimmed | apps/backend/src/routes/api/saccounts/validators.ts:14 | a code with surrounding spaces parses as its trimmed form, and the trimmed form parses to itself |
| SaccountsValidators.ParseSubmitPasswordBody | apps/backend/src/routes/api/saccounts/validators.ts:18-20 | accepted exactly when the password is a non-empty string, yielding it untrimmed |
| SaccountsValidators.ParseFinalizeBody | apps/backend/src/routes/api/saccounts/validators.ts:23-25 | accepted exactly for an object whose label is absent (none) or a string whose trimmed form has 1 to 64 characters; the accepted label is that trimmed form |
| SaccountsValidators.ZNullableString | apps/backend/src/routes/api/saccounts/validators.ts:31-32 | accepts exactly `null` (as none) or a string (as itself); `undefined` is refused |
| SaccountsValidators.ParseMe | apps/backend/src/routes/api/saccounts/validators.ts:28-33 | accepted exactly when `id` is a number, `firstName` a string and `lastName`/`username` strings or null, yielding those values |
| SaccountsValidators.ParseMeOf | apps/backend/src/routes/api/saccounts/validators.ts:28-33 | an object whose four properties read as an account summary parses to that summary |
| SaccountsValidators.ParseSubmitCodeResponse | apps/backend/src/routes/api/saccounts/validators.ts:43-51 | `step: "enter_password"` parses as the password step; `step: "done"` parses exactly when `me` is an account summary, and carries it |
| SaccountsValidators.ParseSubmitPasswordResponse | apps/backend/src/routes/api/saccounts/validators.ts:54-57 | only the `done` step with an account summary is accepted, and it is also a valid code response |
| SaccountsValidators.ParseStartFlowResponse | apps/backend/src/routes/api/saccounts/validators.ts:36-40 | accepted exactly with a UUID `flowId`, the literal step `enter_code` and a UTC date-time `expiresAt`, yielding those two texts |
| SaccountsValidators.ParseFinalizeResponse | apps/backend/src/routes/api/saccounts/validators.ts:60-62 | accepted exactly when `sessionId` is a UUID, yielding it |
| FeedbackValidators.ParseSendFeedback | apps/backend/src/routes/api/feedback/validators.ts:3-5 | accepted exactly when the message has 1 to 1000 characters, yielding it |
| FeedbackValidators.FeedbackBounds | apps/backend/src/routes/api/feedback/validators.ts:4 | both bounds are inclusive: 0 and 1001 characters are refused, 1000 accepted, and a missing message refused |
| ChannelsValidators.ParseSubmitChannel | apps/backend/src/routes/api/channels/validators.ts:3-5 | accepted exactly when `channelId` is a bigint, yielding it |
| ChannelsValidators.ParseVerifyChannel | apps/backend/src/routes/api/channels/validators.ts:7-10 | accepted exactly with a string `channelId` and a UUID `accountId`, yielding both texts |
| ChannelsValidators.SubmitChannelRefusesNumbers | apps/backend/src/routes/api/channels/validators.ts:4 | a JSON number (the only numeric form a JSON body carries) or a missing id is refused by the bigint schema |
| UsersValidators.ParseAuthBody | apps/backend/src/routes/api/users/validators.ts:3-5 | accepted exactly when `initData` is a string of at least 10 characters, yielding it |
| UsersValidators.AuthBodyNoUpperBound | apps/backend/src/routes/api/users/validators.ts:4 | lengthening accepted init data keeps it accepted: there is no upper bound |
| DealHandlers.SubmitTransactionStatus | apps/backend/src/routes/api/deals/handlers.ts:309-333 | 404 for an unknown deal; a deal without a payment gets 500 with nothing written; otherwise its payment alone becomes `confirming` and exactly one confirmation job for that deal and payment is enqueued |
| DealHandlers.GetPaymentWallet | apps/backend/src/routes/api/deals/handlers.ts:335-386 | 422 for a body without a 10-character wallet, before anything else; 404 for an unknown deal; otherwise a fresh escrow wallet is stored and the deal's payment is upserted on `deal_id`: a new one holds the agreed price from the user's wallet, an existing one only gets the new addresses and escrow wallet |
| DealHandlers.GetDealPayment | apps/backend/src/routes/api/deals/handlers.ts:388-408 | 404 exactly for an unknown deal; otherwise the deal's payment, and none exactly when the deal has no payment |
| DealHandlers.ViewOfCreative | apps/backend/src/routes/api/deals/handlers.ts:201-206 | the creative shown keeps its id, version, content and status, with a null media list shown as empty |
| DealHandlers.SummaryOfChannel | apps/backend/src/routes/api/deals/handlers.ts:222-229 | the channel part shows the Telegram id as decimal text, and missing subscriber and reach counts as 0 |
| DealHandlers.GetDealById | apps/backend/src/routes/api/deals/handlers.ts:114-256 | 404 for an unknown deal; 403 unless the user is its advertiser or an admin of its channel; 404 when a joined row is missing; otherwise the deal with its channel summary, the request summary (id, title, description, budget, guidelines) of its application's ad request, the application id and status and the advertiser, the highest-version creative (never a draft when the user is the advertiser) and the role `advertiser` exactly for the deal's advertiser |
| FeedbackHandlers.SendFeedback | apps/backend/src/routes/api/feedback/handlers.ts:12-80 | a message outside 1 to 1000 characters fails; 404 for an unknown deal; the advertiser's message goes to an owner of the channel (404 when there is none); an admin who is not the advertiser writes to the advertiser; anyone else gets 403 |
| CreativeHandlers.Formatted | apps/backend/src/routes/api/creatives/handlers.ts:74-86 | a creative is answered with every column as stored, except that a null media list is sent as `[]` |
| CreativeHandlers.InsertKeepsVersionsUnique | apps/backend/src/routes/api/creatives/handlers.ts:160-179 | a creative numbered above every version of its deal keeps the versions of each deal distinct |
| CreativeHandlers.GetCreativesByDeal | apps/backend/src/routes/api/creatives/handlers.ts:34-92 | 404 for an unknown deal, 403 unless the user is the advertiser or an admin of the deal's channel; otherwise 500 "Failed to fetch creatives", because the listing selects a review-note column the table lacks |
| CreativeHandlers.GetCreativesByDealIntended | apps/backend/src/routes/api/creatives/handlers.ts:34-92 | the listing as intended: the same 404 and 403 guards, then every creative of the deal, each once, highest version first |
| CreativeHandlers.GetCreativeById | apps/backend/src/routes/api/creatives/handlers.ts:94-138 | 404 for an unknown creative or deal, 403 unless the user is the advertiser or an admin of the channel; otherwise the formatted creative |
| CreativeHandlers.CreateCreative | apps/backend/src/routes/api/creatives/handlers.ts:140-205 | an invalid body fails; 404 for an unknown deal; 403 unless the user administers the deal's channel; otherwise a draft numbered one above the deal's highest version (1 for the first) is stored and the deal returns to `awaiting_creative`; versions stay distinct per deal and a refusal writes nothing |
| CreativeHandlers.StoreDraft | apps/backend/src/routes/api/creatives/handlers.ts:160-188 | the draft is stored under a fresh id with the body's content and media (none meaning `[]`), numbered above every version of its deal, and only the deal's status and time change besides |
| CreativeHandlers.NextVersion | apps/backend/src/routes/api/creatives/handlers.ts:161-168 | the next version is above every version of the deal: 1 when the deal has none, one more than the highest otherwise |
| CreativeHandlers.UpdateRefusal | apps/backend/src/routes/api/creatives/handlers.ts:230-242 | the update goes through exactly when the user is the advertiser or a channel admin and a channel admin is touching a draft; a channel admin on a non-draft, an advertiser without `status` and a stranger each get their own 403 message |
| CreativeHandlers.UpdatedCreative | apps/backend/src/routes/api/creatives/handlers.ts:244-268 | the body's content, media and status replace the stored ones and nothing else changes, except that `submitted` stamps the submission time and `approved`/`revision_requested` stamp the review time; id, deal, version and creation time are kept; a review note is not stored |
| CreativeHandlers.UpdateKeepsAbsentFields | apps/backend/src/routes/api/creatives/handlers.ts:244-268 | a field the body does not carry keeps its stored value, and a body with no field changes nothing |
| CreativeHandlers.ReviewNoteDropped | apps/backend/src/routes/api/creatives/handlers.ts:266-274 | a review note in the body changes neither the stored row nor whether the update has anything to set |
| CreativeHandlers.UpdateIdempotent | apps/backend/src/routes/api/creatives/handlers.ts:244-268 | applying the same update twice at the same instant is the same as applying it once |
| CreativeHandlers.UpdateCreative | apps/backend/src/routes/api/creatives/handlers.ts:207-302 | an invalid body fails; 404 for an unknown creative or deal; then the access rule; a body with no column to set (empty, or only a review note) fails with 500 and nothing written; otherwise the creative becomes the updated row, the deal moves to `creative_submitted` or `awaiting_payment` with the status, and versions stay distinct |
| CreativeHandlers.WriteUpdate | apps/backend/src/routes/api/creatives/handlers.ts:252-282 | the writes of an update: the creative row is replaced by the updated one, and the deal's status follows `submitted`/`approved`, all other deal rows untouched |
| CreativeHandlers.ChannelAdminMayApproveDraft | apps/backend/src/routes/api/creatives/handlers.ts:230-242 | a channel admin who is not the advertiser may set any status on a draft, `approved` included, while the advertiser must send a status |
| AdHandlers.HeadBounds | apps/backend/src/routes/api/ads/handlers.ts:73-87 | in a newest-first listing every later row is a different request no newer than the first |
| AdHandlers.ConsNewestFirst | apps/backend/src/routes/api/ads/handlers.ts:73-87 | a request newer than and different from every listed one can head a newest-first listing |
| AdHandlers.FilterNewestFirst | apps/backend/src/routes/api/ads/handlers.ts:90-105 | filtering a newest-first listing keeps it newest-first |
| AdHandlers.Param | apps/backend/src/routes/api/ads/handlers.ts:58-69 | a query parameter counts as set exactly when it is present and non-empty, and then carries its text |
| AdHandlers.FilterWhen | apps/backend/src/routes/api/ads/handlers.ts:90-105 | one filter keeps exactly the rows it accepts when its parameter is set, and every row otherwise, never adding any |
| AdHandlers.Filtered | apps/backend/src/routes/api/ads/handlers.ts:90-105 | the five filters together keep exactly the rows that pass every filter whose parameter is set |
| AdHandlers.FilterWhenNewestFirst | apps/backend/src/routes/api/ads/handlers.ts:90-105 | a filter applied only when its parameter is set keeps the newest-first order |
| AdHandlers.FilteredNewestFirst | apps/backend/src/routes/api/ads/handlers.ts:90-105 | the filtered listing keeps the newest-first order of the query |
| AdHandlers.ListAdRequests | apps/backend/src/routes/api/ads/handlers.ts:45-159 | `hasChannels` says whether the user administers a channel; the listing holds exactly the visible requests (the user's own when they have none, every open one otherwise) that pass the filters, each once and newest first, flagged own exactly for the user's requests and applied exactly when one of their channels applied; `total` is the listing's length |
| AdHandlers.Annotate | apps/backend/src/routes/api/ads/handlers.ts:108-143 | each listed request, in order, is flagged own exactly when the user is its advertiser and applied exactly when the user has channels and one of them applied |
| AdHandlers.VisibleRows | apps/backend/src/routes/api/ads/handlers.ts:73-87 | the query returns each visible request once, newest first, and only visible requests |
| AdHandlers.ApplyToAdRequest | apps/backend/src/routes/api/ads/handlers.ts:300-365 | an invalid body fails; 404 for an unknown request; 400 unless it is `open`; 403 unless the user administers the channel; 400 when the channel already applied; otherwise exactly one `pending` application is added, and a channel never applies twice to one request |
| AdHandlers.StoreApplication | apps/backend/src/routes/api/ads/handlers.ts:352-358 | the application is stored `pending` under a fresh id, and each channel still applies at most once per request |
| AdHandlers.UpdateApplicationStatus | apps/backend/src/routes/api/ads/handlers.ts:416-465 | a `null` body fails; 404 for an unknown request; 403 unless the user is its advertiser; a status outside the enumeration fails with nothing written; 404 when the application is not one of this request's; otherwise its status is set, and `accepted` moves the request to `in_progress` |
| AdHandlers.UpdatedAdRequest | apps/backend/src/routes/api/ads/handlers.ts:248-255 | each of the nine fields the body carries replaces the stored one and each absent one is kept; a parsed deadline replaces the stored one; id, advertiser and creation time are kept and the update time is stamped |
| AdHandlers.EmptyUpdateStampsOnly | apps/backend/src/routes/api/ads/handlers.ts:248-255 | an empty body without a deadline only stamps the update time |
| AdHandlers.UpdateAdRequest | apps/backend/src/routes/api/ads/handlers.ts:228-268 | an invalid body fails; 404 for an unknown request; 403 unless the user is its advertiser; an empty or unreadable deadline fails with nothing written; otherwise the row becomes the updated row |
| AdHandlers.DeleteAdRequest | apps/backend/src/routes/api/ads/handlers.ts:271-297 | 404 for an unknown request; 403 unless the user is its advertiser; 500 with nothing deleted when a deal was made from one of its applications; otherwise the request and exactly its applications are removed |
| ChannelHelpers.ChannelUsername | apps/backend/src/routes/api/channels/helpers.ts:152 | the username holds no `/` and is the tail of the input after its first `@` is removed |
| ChannelHelpers.UsernameOfHandle | apps/backend/src/routes/api/channels/helpers.ts:152 | a bare handle and the same handle with `@` both give the handle |
| ChannelHelpers.UsernameOfLink | apps/backend/src/routes/api/channels/helpers.ts:152 | a link ending in `/handle` gives the handle, whatever host and path precede it |
| ChannelHelpers.UsernameOfTgLink | apps/backend/src/routes/api/channels/helpers.ts:197 | the stored `https://t.me/` link leads back to the username it was built from |
| ChannelHelpers.FindColumn | apps/backend/src/routes/api/channels/helpers.ts:119 | finds the first column labelled with the key, and nothing exactly when no column has that label |
| ChannelHelpers.SwapLeft | apps/backend/src/routes/api/channels/helpers.ts:129 | exchanging two neighbouring entries changes nothing else and keeps the same entries |
| ChannelHelpers.InsertLeft | apps/backend/src/routes/api/channels/helpers.ts:129 | moving one entry left past smaller totals extends the ordered prefix by one and keeps the same entries |
| ChannelHelpers.SortByTotalDesc | apps/backend/src/routes/api/channels/helpers.ts:129 | after the sort no entry is followed by a larger total, and the entries are a permutation of those before |
| ChannelHelpers.ExtractLanguagesFromStats | apps/backend/src/routes/api/channels/helpers.ts:95-131 | nothing unless the languages graph is asynchronous and loads as a graph; otherwise exactly one entry per series, named by its display name and totalling its column (0 without one), largest total first |
| ChannelHelpers.Refreshed | apps/backend/src/routes/api/channels/helpers.ts:216-226 | the upsert of a known channel refreshes access hash, counts, languages, link and update time, and keeps id, Telegram id, title, owner, listing, visibility, wallet and creation time |
| ChannelHelpers.VerifyChannelAdmin | apps/backend/src/routes/api/channels/helpers.ts:133-236 | an unknown session throws "Not a valid account!"; a failed lookup, a non-channel, a service account that is not an admin, or no statistics data centre each throw with nothing written; otherwise the channel's statistics (languages ordered by total) are returned and its row is refreshed when its Telegram id is known, or added under a new id |
| ChannelHelpers.SyncChannelAdmin | apps/backend/src/routes/api/channels/helpers.ts:310-347 | an unknown Telegram id throws "Channel not found in database" with nothing written; a user who already holds a row for the channel is left alone; otherwise exactly one `owner` row from `telegram` is added for them |
| ChannelHelpers.InviteRow | apps/backend/src/routes/api/channels/helpers.ts:290-297 | an invitation's row is an `admin` from an `invite` for the given channel and user |
| ChannelHelpers.InviteInsertAsWritten | apps/backend/src/routes/api/channels/helpers.ts:290-301 | as written, the insert always adds the row and returns it, since no constraint can conflict |
| ChannelHelpers.InviteAsWrittenDuplicates | apps/backend/src/routes/api/channels/helpers.ts:290-301 | as written, inviting a current admin of the channel adds a second row for the same user and channel and returns it |
| ChannelHelpers.InsertInvitedAdmin | apps/backend/src/routes/api/channels/helpers.ts:290-301 | the intended insert with the next identity id: the row is added exactly when the user has no row for the channel, and nothing changes otherwise |
| ChannelHelpers.InviteTwiceRefused | apps/backend/src/routes/api/channels/helpers.ts:290-301 | with the intended insert, once an invitation has added its row, a second invitation of the same user to the same channel adds nothing and returns `null` |
| ChannelHelpers.InviteIntendedKeepsOneRow | apps/backend/src/routes/api/channels/helpers.ts:290-301 | the intended insert adds the invitation's row exactly when the user holds no row for the channel, leaves the table unchanged otherwise, and keeps at most one row per user and channel |
| ChannelHelpers.SyncNewAdminByOwner | apps/backend/src/routes/api/channels/helpers.ts:238-308 | as written: without an active session it throws "Not a valid account!"; a failed lookup, a non-channel or an invited user who is not an admin each throw with nothing written; otherwise a new `admin` row from `invite` with a fresh id is always added and returned, even for a user who already holds one |
| ChannelHelpers.InvitedUserId | apps/backend/src/routes/api/channels/helpers.ts:243-287 | without an active session it throws "Not a valid account!"; a failed lookup, a non-channel or a user who is not a channel admin each throw their message; otherwise the invited user's Telegram id |
| ChannelHelpers.SyncNewAdminByOwnerIntended | apps/backend/src/routes/api/channels/helpers.ts:238-308 | the same checks and errors, then the intended insert: an invited user who already holds a row for the channel gets `null` and nothing is written |
| ChannelHelpers.ToNumber | apps/backend/src/routes/api/channels/helpers.ts:404 | the value `>` and `<=` compare: a number itself, a string by `Number`'s grammar, a boolean as 0 or 1, null as 0, an array by its joined text, undefined and objects as NaN |
| ChannelHelpers.JoinedNumber | apps/backend/src/routes/api/channels/helpers.ts:404 | an empty array reads as 0, an array of two or more elements as NaN, and a boolean, date or object element as NaN |
| ChannelHelpers.SingletonArrayNumber | apps/backend/src/routes/api/channels/helpers.ts:404 | a one-element array of a number, bigint, string or null compares as that element; `[true]` is NaN though `true` is 1, and `[undefined]` is 0 though undefined is NaN |
| ChannelHelpers.NestedArrayNumber | apps/backend/src/routes/api/channels/helpers.ts:404 | wrapping an array in further one-element arrays does not change its number |
| ChannelHelpers.PostPrice | apps/backend/src/routes/api/channels/helpers.ts:401-404 | a numeric post price is read as it is, and a missing one is NaN, so it fails both comparisons |
| ChannelHelpers.DigitTextPrice | apps/backend/src/routes/api/channels/helpers.ts:404 | a post price stored as decimal digit text reads as the number those digits write |
| ChannelHelpers.CoercedPriceBudget | apps/backend/src/routes/api/channels/helpers.ts:397-405 | the budget filter keeps a channel priced by digit text exactly when that number is between 1 and the budget, keeps one priced `true` exactly when the budget is at least 1, and drops one priced `false` |
| ChannelHelpers.StatsOf | apps/backend/src/routes/api/channels/helpers.ts:408-417 | a channel is returned without its access hash, with title "Unknown", counts 0 and no languages where the columns are empty |
| ChannelHelpers.AdministeredChannels | apps/backend/src/routes/api/channels/helpers.ts:368-379 | the joined query returns one row per admin row of the user whose channel meets the subscriber minimum, and every such admin row gives one; so it lists exactly the channels the user administers that meet the minimum, a channel twice when the user holds two rows for it, and each once when every user holds one row per channel |
| ChannelHelpers.Serving | apps/backend/src/routes/api/channels/helpers.ts:386-406 | the language filter and then the budget filter keep exactly the rows that pass both, each as often as it occurs and in order, and keep rows distinct |
| ChannelHelpers.OfferedStats | apps/backend/src/routes/api/channels/helpers.ts:386-417 | every returned channel is administered by the user, meets every condition of the request and is shown as the stored channel; every such channel is returned; a channel the joined rows list twice is returned twice, and distinct rows give distinct channels |
| ChannelHelpers.GetChannelsByUser | apps/backend/src/routes/api/channels/helpers.ts:349-418 | an unknown request gives no channels; the call throws exactly when the user administers no channel with enough subscribers (with a message that depends on whether a request was given); otherwise it returns exactly the channels that pass the request's conditions, twice when the user holds two admin rows for one, and once each when every user holds one row per channel |
| ChannelHelpers.NameAtMondayIndex | apps/backend/src/routes/api/channels/helpers.ts:437-442 | the Monday-first position of today names the same day as `getDay` |
| ChannelHelpers.DaysDistinct | apps/backend/src/routes/api/channels/helpers.ts:437 | the seven day names are distinct |
| ChannelHelpers.RotationDistinct | apps/backend/src/routes/api/channels/helpers.ts:440-443 | rotating the week keeps the calendar order and lists each day once |
| ChannelHelpers.WeekdayOrder | apps/backend/src/routes/api/channels/helpers.ts:437-443 | seven distinct days, starting with today and continuing in calendar order |
| ChannelHelpers.WeeklyPostStats | apps/backend/src/routes/api/channels/helpers.ts:435-449 | seven entries in that day order, starting with today, where entry `i` has between `6 - i` and `15 - i` posts |
| ChannelHandlers.AgentForChannel | apps/backend/src/routes/api/channels/handlers.ts:23-49 | a body without a bigint `channelId` fails; with no active session the answer is a 500; otherwise an active session is offered as the agent, named by its first and last name |
| ChannelHandlers.JsonBodyNeverOffersAgent | apps/backend/src/routes/api/channels/handlers.ts:24 | a body decoded from JSON holds no bigint, so the agent endpoint refuses every body a client can send |
| ChannelHandlers.RegisterChannel | apps/backend/src/routes/api/channels/handlers.ts:60-63 | verification followed by the admin sync succeeds exactly when the session's account administers the channel and Telegram reports a statistics data centre; then the channel is stored and the user holds an admin row for it, and a throw leaves both tables as they were |
| ChannelHandlers.VerifyChannel | apps/backend/src/routes/api/channels/handlers.ts:51-85 | an incomplete body is an error with status 200; otherwise the channel is verified, stored and the user recorded as its admin, the answer carrying the channel without its access hash; any throw is a 500 that writes nothing |
| ChannelHandlers.Published | apps/backend/src/routes/api/channels/handlers.ts:91-93 | each listed channel is answered without its access hash, in the same order |
| ChannelHandlers.GetChannels | apps/backend/src/routes/api/channels/handlers.ts:87-99 | as written, the reply is always a success with an empty list: a non-empty list still holds the `bigint` `tgId`, `JSON.stringify` throws on it and the catch answers with `[]` |
| ChannelHandlers.TgIdJson | apps/backend/src/routes/api/channels/handlers.ts:95 | a `tgId` left as the `bigint` column is what `JSON.stringify` refuses, and its decimal text is not |
| ChannelHandlers.ListedJson | apps/backend/src/routes/api/channels/handlers.ts:95 | the reply's data can be serialised exactly when the `tgId` values were turned into text or nothing is listed |
| ChannelHandlers.ListedChannels | apps/backend/src/routes/api/channels/handlers.ts:89-93 | the listed channels are exactly the channels the user administers in any role, without access hashes, once each when every user holds one row per channel; none when the helper throws |
| ChannelHandlers.GetChannelsIntended | apps/backend/src/routes/api/channels/handlers.ts:87-99 | as intended, always a success listing exactly the channels the user administers in any role, once each when every user holds one row per channel |
| ChannelHandlers.GetChannelsForRequest | apps/backend/src/routes/api/channels/handlers.ts:101-121 | a missing request id is an error with status 200; an unknown request gives an empty list; otherwise the user's channels that can serve it, each once when every user holds one row per channel, or a 500 when the user administers none with enough subscribers |
| ChannelHandlers.ViewOf | apps/backend/src/routes/api/channels/handlers.ts:199-218 | the detail projection shows missing counts as 0, missing languages as empty, a missing listing as the all-zero prices, public only for a stored `true`, and no offers or publications |
| ChannelHandlers.GetChannelById | apps/backend/src/routes/api/channels/handlers.ts:168-227 | 404 for an unknown Telegram id; 403 unless the user has an admin row for the channel; otherwise its projection with the weekly placeholder statistics |
| ChannelHandlers.AdminsOf | apps/backend/src/routes/api/channels/handlers.ts:258-276 | the admin list holds exactly the channel's rows whose user is registered, each once, every `admin` before every `owner` |
| ChannelHandlers.GetChannelAdmins | apps/backend/src/routes/api/channels/handlers.ts:229-283 | 404 for an unknown channel; 403 unless the user has an admin row for it; otherwise each of the channel's admin rows joined with its user, each row once, every `admin` before every `owner` |
| ChannelHandlers.AddAdmin | apps/backend/src/routes/api/channels/handlers.ts:285-330 | a refused body is a 422; 404 for an unknown channel; 403 unless the user has an admin row for it; a Telegram check that throws is a 500; otherwise exactly one new `admin` row from `invite` is added with a fresh id and returned, so the "Admin already exists" answer is never given; a failure writes nothing |
| ChannelHandlers.DemoteAdmin | apps/backend/src/routes/api/channels/handlers.ts:332-399 | 404 for an unknown channel; 403 unless the user owns it; 404 unless the row is an admin of this channel; 400 for an owner row; 400 "cannot demote yourself" for the user's own `admin` row; otherwise exactly that row is deleted; owner rows are never deleted |
| ChannelHandlers.IsPublicColumn | apps/backend/src/routes/api/channels/handlers.ts:433-437 | the column takes a sent boolean, is cleared by `null`, keeps its value when the property is absent, and refuses anything else |
| ChannelHandlers.ListingSetting | apps/backend/src/routes/api/channels/handlers.ts:401-445 | a refused body is a 422; 404 for an unknown channel; 403 unless the user has an admin row for it; otherwise only the listing, the public flag and the update time of that channel are written |
| ChannelHandlers.ListingShownAsSaved | apps/backend/src/routes/api/channels/handlers.ts:433-437 | after a listing update the detail page shows every property sent except `isPublic`, public exactly when `true` was stored, and the rest of the channel as before |
| ChannelHandlers.GetPublicChannels | apps/backend/src/routes/api/channels/handlers.ts:447-482 | always succeeds with the projection of every channel whose flag is `true` (a null flag is not public), once each, and of no other channel |
| SaccountHelpers.MustEnv | apps/backend/src/routes/api/saccounts/helpers.ts:3-9 | returns the variable's value exactly when it is set and not empty; otherwise throws the "Missing env" error naming it |
| SaccountHelpers.StorageKeyForFlow | apps/backend/src/routes/api/saccounts/helpers.ts:13 | the key is the fixed flow prefix followed by the flow id, which can be read back from it |
| SaccountHelpers.StorageKeysDistinct | apps/backend/src/routes/api/saccounts/helpers.ts:13 | distinct flow ids give distinct storage keys |
| SaccountHelpers.MeDto | apps/backend/src/routes/api/saccounts/helpers.ts:17-22 | keeps the account id, last name and username (missing ones as null); a missing first name becomes the empty text |
| SaccountHelpers.MeDtoAccepted | apps/backend/src/routes/api/saccounts/validators.ts:28-33 | the account summary sent by the login routes is accepted by the `MeDto` schema and read back unchanged |
| SaccountHelpers.IsPasswordNeededError | apps/backend/src/routes/api/saccounts/helpers.ts:24-27 | true exactly when the error text contains `SESSION_PASSWORD_NEEDED` at some position |
| SaccountHandlers.PhoneFlow | apps/backend/src/routes/api/saccounts/handlers.ts:37-47 | the stored flow is a phone flow waiting for its code, under the flow's storage key, with the phone and code hash, expiring 15 minutes after it starts |
| SaccountHandlers.StartFlow | apps/backend/src/routes/api/saccounts/handlers.ts:15-60 | a refused body, a Telegram throw or a clashing insert is a 500; a code of type `user` is refused with status 200 and nothing stored; otherwise exactly one new flow waiting for its code is stored and `enter_code` is answered with the code length and expiry; no flow is ever put in `waiting_password` |
| SaccountHandlers.AgentSession | apps/backend/src/routes/api/saccounts/handlers.ts:118-130 | the stored session is an active stats agent under the flow's storage key, labelled and identified by the account id, with the names as `meDto` shows them |
| SaccountHandlers.SignInWithCode | apps/backend/src/routes/api/saccounts/handlers.ts:81-137 | a flow without phone or code hash, or a failed sign-in, is a 400 "sign in failed"; a password-needed error answers `enter_password` and writes nothing; a sign-in stores exactly one agent session and marks the flow `done` |
| SaccountHandlers.SubmitCode | apps/backend/src/routes/api/saccounts/handlers.ts:62-138 | a refused id or body is a 500; then 404 for an unknown flow, and 400 for a flow not in phone mode, not waiting for its code, or expired (in that order); a completed sign-in concerns a flow that was admissible, adds exactly one active session and marks only that flow `done` |
| SaccountHandlers.SubmitPassword | apps/backend/src/routes/api/saccounts/handlers.ts:140-178 | the same checks with bare error objects, but the flow must wait for a password; a wrong password is a 400; a right one marks the flow `done` and stores no session; as no route writes `waiting_password`, every flow the routes create is refused |
| Utf8.EncodeChar | apps/backend/src/utils/helpers.ts:12 | one character is encoded as one to four bytes |
| Utf8.Utf8Encode | apps/backend/src/utils/helpers.ts:12 | a string takes at least one and at most four bytes per character |
| Utf8.DecodeChar | apps/backend/src/utils/helpers.ts:16 | a decoded character takes one to four bytes, no more than the input has |
| Utf8.DecodeTwoBytes | apps/backend/src/utils/helpers.ts:16 | a character from U+0080 to U+07FF is read back from its two bytes, whatever follows |
| Utf8.DecodeThreeBytes | apps/backend/src/utils/helpers.ts:16 | a character from U+0800 to U+FFFF is read back from its three bytes, whatever follows |
| Utf8.DecodeFourBytes | apps/backend/src/utils/helpers.ts:16 | a character from U+10000 on is read back from its four bytes, whatever follows |
| Utf8.DecodeEncodedChar | apps/backend/src/utils/helpers.ts:12-16 | decoding the bytes of a character reads back that character and exactly its bytes |
| Utf8.Utf8RoundTrip | apps/backend/src/utils/helpers.ts:12-16 | UTF-8 decoding gives back every encoded string |
| PhotoToken.SextetOf | apps/backend/src/utils/helpers.ts:12-16 | a character of the base64 alphabet stands for one 6-bit value, the one that is written as it |
| PhotoToken.SextetRoundTrip | apps/backend/src/utils/helpers.ts:12-16 | every 6-bit value is read back from its character |
| PhotoToken.Quad | apps/backend/src/utils/helpers.ts:12 | three bytes become four alphabet characters |
| PhotoToken.Single | apps/backend/src/utils/helpers.ts:12 | a final single byte becomes two alphabet characters and two pads |
| PhotoToken.Pair | apps/backend/src/utils/helpers.ts:12 | a final pair of bytes becomes three alphabet characters and one pad |
| PhotoToken.Base64Encode | apps/backend/src/utils/helpers.ts:12 | the text has four characters for every started group of three bytes, all of them alphabet or pad characters, with pads only in the last two places |
| PhotoToken.Bytes3OfQuad | apps/backend/src/utils/helpers.ts:12-16 | the four sextets of three bytes stand for those bytes |
| PhotoToken.DecodeQuadPrefix | apps/backend/src/utils/helpers.ts:16 | a full group in front decodes to its three bytes followed by the decoding of the rest |
| PhotoToken.DecodeSingle | apps/backend/src/utils/helpers.ts:12-16 | a padded final single byte decodes back to it |
| PhotoToken.DecodePair | apps/backend/src/utils/helpers.ts:12-16 | a padded final pair of bytes decodes back to them |
| PhotoToken.ShortRoundTrip | apps/backend/src/utils/helpers.ts:12-16 | a last group of one or two bytes decodes back to them |
| PhotoToken.QuadStep | apps/backend/src/utils/helpers.ts:12-16 | a full group in front of bytes that round-trip keeps the round trip |
| PhotoToken.Base64RoundTrip | apps/backend/src/utils/helpers.ts:12-16 | base64 decoding gives back every encoded byte sequence |
| PhotoToken.EncodePhotoToken | apps/backend/src/utils/helpers.ts:11-13 | a token is the base64 text of the file id's UTF-8 bytes: four alphabet or pad characters per started group of three bytes |
| PhotoToken.DecodePhotoToken | apps/backend/src/utils/helpers.ts:15-17 | a token made from a file id decodes to exactly that file id |
| PhotoToken.PhotoTokenRoundTrip | apps/backend/src/utils/helpers.ts:11-17 | decoding a photo token gives back the file id it was made from |
| PhotoToken.PhotoTokenInjective | apps/backend/src/utils/helpers.ts:11-17 | different file ids never share a token |
| ApiClient.IsApiShape | apps/web/src/lib/http.ts:22-31 | true exactly for an object whose `status` is `"success"` or `"error"` |
| ApiClient.ClientErrorReads | apps/web/src/lib/http.ts:62-67 | an error object the client builds has status `"error"`, `ok` false, and the given kind and message |
| ApiClient.HttpErrorReads | apps/web/src/lib/http.ts:94-114 | an HTTP failure without an api-shaped error body gives status `"error"`, `ok` false, kind `http`, the status code and the "Request failed" message |
| ApiClient.SpreadOkReads | apps/web/src/lib/http.ts:79-85 | spreading a body under `ok` sets `ok` and keeps every other property as the body has it |
| ApiClient.SpreadHttpReads | apps/web/src/lib/http.ts:103-106 | spreading an error body under the `http` properties sets `ok`, `kind` and `statusCode` and keeps everything else |
| ApiClient.Request | apps/web/src/lib/http.ts:52-126 | whatever happens, the result's `status` is `"success"` or `"error"` and `ok` is true exactly for `"success"` |
| ApiClient.BadResponse | apps/web/src/lib/http.ts:59-77 | a 2xx answer that is not JSON, or JSON without the envelope, is a `bad_response` with the matching message |
| ApiClient.EnvelopePassedOn | apps/web/src/lib/http.ts:79-85 | a 2xx envelope is passed on with every property it has; only `ok` is added or overwritten |
| ApiClient.HttpFailure | apps/web/src/lib/http.ts:87-115 | any other HTTP status gives kind `http` with that status code; the server's message is kept exactly when its body is an api-shaped error |
| ApiClient.NetworkFailure | apps/web/src/lib/http.ts:117-124 | any other exception gives `ok` false, kind `network` and the message "Network error" |
| ApiClient.ChannelPhotoUrl | apps/web/src/lib/http.ts:128-131 | the photo address is the API address, the photo route, and the part of the link after its last `/` |
| ApiClient.PhotoOfStoredLink | apps/backend/src/routes/api/channels/helpers.ts:197 | for a link the backend stored for a username, the photo is asked for by that username |
| UrlSearch.HexValue | apps/web/src/lib/utils.ts:42 | a hexadecimal digit of either case reads as its value, below 16 |
| UrlSearch.EncodeByte | apps/web/src/lib/utils.ts:42 | one byte is written as one to three characters, never `&` or `=` |
| UrlSearch.EncodeBytes | apps/web/src/lib/utils.ts:42 | an encoded byte sequence holds no `&` and no `=` |
| UrlSearch.FormEncode | apps/web/src/lib/utils.ts:42 | an encoded name or value holds neither separator and is empty only for the empty text |
| UrlSearch.DecodeEncodedByte | apps/web/src/lib/utils.ts:42 | decoding reads each encoded byte back, whatever follows it |
| UrlSearch.EncodeBytesRoundTrip | apps/web/src/lib/utils.ts:42 | decoding gives back every encoded byte sequence |
| UrlSearch.FormRoundTrip | apps/web/src/lib/utils.ts:42 | every name and value is read back from its encoded form |
| UrlSearch.EncodedPairs | apps/web/src/lib/utils.ts:42 | one `name=value` piece per pair, in order, both sides encoded |
| UrlSearch.Serialize | apps/web/src/lib/utils.ts:42 | the query string is empty exactly when there are no pairs |
| UrlSearch.ParseEncodedPair | apps/web/src/lib/utils.ts:42 | one encoded `name=value` piece parses back to its pair |
| UrlSearch.ParseEncodedPairs | apps/web/src/lib/utils.ts:42 | the encoded pieces parse back to the same pairs in the same order |
| UrlSearch.ParseSerialize | apps/web/src/lib/utils.ts:42 | a written query string parses back to exactly the pairs held, in order |
| UrlSearch.Names | apps/web/src/lib/utils.ts:25-40 | the names of the pairs, in order |
| UrlSearch.ValuesOf | apps/web/src/lib/utils.ts:25-40 | a name that no pair has carries no values |
| UrlSearch.RemoveAll | apps/web/src/lib/utils.ts:25-40 | no pair with that name is left |
| UrlSearch.RemoveAllValues | apps/web/src/lib/utils.ts:25-40 | removing a name leaves it no values and every other name its values |
| UrlSearch.SetEntryValues | apps/web/src/lib/utils.ts:26-40 | after `set` the name has exactly the new value and every other name keeps its values |
| UrlSearch.SetEntryAppends | apps/web/src/lib/utils.ts:26-40 | setting a name not yet present appends one pair at the end |
| UrlSearch.UrlSearchParams.constructor | apps/web/src/lib/utils.ts:25 | a new builder holds no pairs |
| UrlSearch.UrlSearchParams.Set | apps/web/src/lib/utils.ts:26-40 | the builder's pairs become those `set` leaves |
| UrlSearch.UrlSearchParams.ToString | apps/web/src/lib/utils.ts:42 | the query string parses back to exactly the pairs held and is empty exactly when there are none |
| AdsFilterQuery.WhenInOrder | apps/web/src/lib/utils.ts:26-40 | setting a name ranked above all present keeps the names in the fixed order |
| AdsFilterQuery.ValuesOfAppend | apps/web/src/lib/utils.ts:26-40 | appending a pair adds its value to its own name only |
| AdsFilterQuery.WhenValues | apps/web/src/lib/utils.ts:26-40 | a conditional `set` adds the value to its name only when the filter is used |
| AdsFilterQuery.ValuesChain | apps/web/src/lib/utils.ts:26-40 | the values of a name are what each of the five steps contributes, in order |
| AdsFilterQuery.FilterEntriesValues | apps/web/src/lib/utils.ts:26-40 | each filter name carries its filter's value exactly when the filter is truthy (a budget of 0 and an empty text are left out), at most once |
| AdsFilterQuery.FilterEntriesValue | apps/web/src/lib/utils.ts:18-43 | no name other than the five filter names occurs, and each carries exactly its filter's value when used |
| AdsFilterQuery.RankOfFilterNames | apps/web/src/lib/utils.ts:26-40 | the five filter names are ranked in the order they are set |
| AdsFilterQuery.RankedName | apps/web/src/lib/utils.ts:26-40 | a name ranked within the fixed order is one of the filter names |
| AdsFilterQuery.WhenStep | apps/web/src/lib/utils.ts:26-40 | one step keeps the names in order when its name ranks above all earlier ones |
| AdsFilterQuery.FilterEntriesOrder | apps/web/src/lib/utils.ts:26-40 | the parameters come in the order status, minBudget, maxBudget, language, adFormat, each at most once |
| AdsFilterQuery.FilterEntriesEmpty | apps/web/src/lib/utils.ts:18-43 | there is no parameter exactly when there is no filters object or none of its filters is truthy |
| AdsFilterQuery.SetIfGiven | apps/web/src/lib/utils.ts:26-40 | a used filter appends one pair to the builder and an unused one changes nothing; the names stay ranked |
| AdsFilterQuery.FillParams | apps/web/src/lib/utils.ts:25-40 | the builder ends with exactly the pairs of the used filters, in order |
| AdsFilterQuery.ConvertAdsFilter | apps/web/src/lib/utils.ts:18-43 | the query string parses back to exactly the used filters' pairs and is empty exactly when there are none |
| AdsFilterQuery.AdRequestsPath | apps/web/src/lib/http.ts:145-161 | the path is `ads` when no filter is used, otherwise `ads?` followed by the same query string `convertAdsFilter` writes |
| Navigator.StripDash | apps/backend/src/dash/lib/navigator.ts:6 | removing the first `/dash` from a path under it leaves the remainder |
| Navigator.PathToPage | apps/backend/src/dash/lib/navigator.ts:5-15 | a path starting with `/dash` is the login page when the rest is `/login`, the accounts page when it is `/accounts`, and the home page otherwise (`/dash` and `/dash/` included) |
| Navigator.PageToUrl | apps/backend/src/dash/lib/navigator.ts:17-19 | every page's URL starts with `/dash`, and it is `/dash` itself exactly for the home page |
| Navigator.PathUnderDash | apps/backend/src/dash/lib/navigator.ts:5-15 | the same lookup for a path written as `/dash` followed by a remainder, the form the round trip needs |
| Navigator.PathToPageOfOtherPaths | apps/backend/src/dash/lib/navigator.ts:5-15 | any other path under `/dash`, including `/dash/` itself, is the home page |
| Navigator.PageUrlRoundTrip | apps/backend/src/dash/lib/navigator.ts:5-19 | every page's URL leads back to that page |
| Navigator.PageToUrlInjective | apps/backend/src/dash/lib/navigator.ts:17-19 | different pages have different URLs |
| Navigator.Notices | apps/backend/src/dash/lib/navigator.ts:25-29 | one emit calls each subscriber once, in subscription order, with the page |
| Navigator.NoticesOncePerSubscriber | apps/backend/src/dash/lib/navigator.ts:23-29 | with the subscribers held as a set, each is called exactly once with the current page and no one else is called |
| Navigator.Router.constructor | apps/backend/src/dash/lib/navigator.ts:21-23 | the page at load is the page of the location's path; nothing is subscribed, pushed or delivered |
| Navigator.Router.Subscribe | apps/backend/src/dash/lib/navigator.ts:47 | a component is added at the end unless it is already subscribed |
| Navigator.Router.Unsubscribe | apps/backend/src/dash/lib/navigator.ts:48 | the subscriptions become the old ones without the component, the others in their order; every other subscription stays and the list stays free of repeats |
| Navigator.Router.Emit | apps/backend/src/dash/lib/navigator.ts:25-29 | every subscriber is told the current page once, in order |
| Navigator.Router.Navigate | apps/backend/src/dash/lib/navigator.ts:31-35 | the page becomes the target, its URL is pushed, and every subscriber hears of it |
| Navigator.Router.PopState | apps/backend/src/dash/lib/navigator.ts:37-40 | the page is read again from the location and announced to every subscriber |
| TmaUsername.AllUsernameChars | apps/web/src/lib/tma.ts:44 | true exactly when every character is a letter, digit or `_` |
| TmaUsername.MatchesUsername | apps/web/src/lib/tma.ts:44 | true exactly for 5 to 32 characters, each a letter, digit or `_` |
| TmaUsername.RejectedInputs | apps/web/src/lib/tma.ts:44 | a text holding `@`, `-`, `.`, `/` or whitespace is refused |
| TmaUsername.RejectedLengths | apps/web/src/lib/tma.ts:44 | a text of 4 or 33 characters is refused, one short of the minimum and one past the maximum |
| TmaUsername.TypedUsername | apps/web/src/app/channels/new/page.tsx:70 | the text the forms test is never longer than what was typed |
| TmaUsername.TypedHandle | apps/web/src/components/add-admin-sheet.tsx:34-35 | typing a valid username with or without its `@` tests that username |
| TmaUsername.AcceptedUsernameReachesBackend | apps/backend/src/routes/api/channels/helpers.ts:152-197 | a username the client accepts reaches the backend unchanged and is stored as `https://t.me/` followed by it |

## Left out

- Drizzle query construction, joins and `.returning()`: tables are maps and queries are lookups; row order of an unordered `select` is not modelled, so listings are stated as sets of rows unless the query orders them (the joined channel listing is fixed in admin-row order, and lists a channel once per admin row).
- Database errors other than constraint violations the model states (a clashing uuid or storage key): a failing connection is not modelled.
- Telegram I/O (mtcute connect, sendText, getMessages, resolvePeer, getParticipant, stats calls, `account.updateProfile`) and the bot: gateway parameters returning results stand in for them.
- The photo download handlers (`handleGetChannelPhoto`, `handleChannelPhotoByUsername`): they only stream a Telegram download; the token they decode is modelled in PhotoToken.
- TON client code, mnemonics, seqno transfers: the gateway is abstract; `toNano` is modelled for whole TON amounts only.
- Concurrency: worker concurrency, `Promise.all`, the un-awaited enqueue and the `withDelay` sleeps; jobs run one at a time, and the queue library's retry timing is kept only as the options a job is added with.
- `Math.random` in the weekly statistics, `crypto.randomUUID` and key generation: they are inputs.
- Floating point: JSON numbers are exact reals, prices and amounts integers; `formatNumber`, `Number(bigint)` precision loss and a non-integer `avgPostReach` are not modelled.
- Zod.NumberOfText: reads every literal form of `Number`'s string grammar (sign, fraction, exponent, `0x`/`0o`/`0b`, `Infinity`) as an exact value, so the rounding of a long literal to the nearest double and the overflow of a huge one to `Infinity` are not modelled.
- Zod.ZCoercePositiveInt: inherits that exact reading; a literal such as `"1.0000000000000001"`, which rounds to the double 1, is refused by the model.
- ChannelHandlers.GetChannelsForRequest: takes the `request` query parameter already read as an id; text such as `abc` or `1.5`, which `Number` turns into NaN or a fraction that PostgreSQL refuses for an integer column (a 500 with the error text), is not modelled.
- The review note an advertiser sends with a creative update: the table has no column for it, so neither the code nor the model stores it, and no intended note column is modelled.
- `toIso` and date parsing: timestamps are integers, and parsing a date text is a parameter of the deadline validator.
- `BigInt(...)`/`Number.parseInt` on path parameters that are not numbers: handlers take the parsed parameter; the filters of the ad listing do model `Number.parseInt` on query text that starts with digits, and text that does not start with a sign, digit or whitespace (NaN, so the filter drops every row).
- PostgreSQL's coercion of a JSON boolean column: `isPublic` is `true`, `false` or null as sent.
- The exact text of `JSON.stringify(listingInfo)`: the listing is kept as the JSON value it serializes.
- The order of admins within one role in the admin list, and the stability of the language sort: only the order the query or comparator fixes is stated.
- `handleGetList` (saccounts), `handleGetDeals`, `handleGetChannelOwnerForDeal`, `handleCreateAdRequest`, `handleGetMyAdRequests`, `handleGetAdRequestById` and `handleGetAdRequestApplications`: read-only or plain-insert CRUD handlers outside the modelled deal flow and guard rules.
- The body schemas `AddAdminToChannelParam` and `SetListingInfoParam` that the channel handlers import are not defined in apps/backend/src/routes/api/channels/validators.ts; so their outcome is an input of the handler model: the parsed data, or the refusal message answered with 422.
- The `state: {}` column of a new login flow: no route reads it.
- zod's error message texts: a refusal is `None` and the handler's own message or status is modelled.
- The identity value an `onConflictDoNothing` insert consumes when it conflicts: ids are drawn only for rows stored.
- Lenient base64 and UTF-8 decoding of malformed tokens: `PhotoToken.DecodePhotoToken` is defined on canonical tokens of well-formed UTF-8, which is all the backend ever issues.
- Lenient `URLSearchParams` parsing: `UrlSearch.ParseQuery` is a reference reading of what `toString` writes.
- The `ky` client's retry, timeout and headers (the bearer token), and `usePage`'s hook plumbing beyond `subs.add`/`subs.delete`.
- Authentication, JWT, route wiring and all UI code.

## Findings

| source | as written | input that shows it | evidently intended | confidence | as-written member | corrected member |
|---|---|---|---|---|---|---|
| apps/backend/src/routes/api/channels/helpers.ts:290-301 | inviting an admin inserts with `onConflictDoNothing()`, but `channel_admins` has no unique key besides its identity id, so nothing ever conflicts | owner invites user 7 to channel 1 twice: the second insert adds a second `admin` row for (1, 7), so the "Admin already exists" answer of apps/backend/src/routes/api/channels/handlers.ts:319-323 is never given | at most one admin row per (channel, user): a repeated invitation stores nothing | not executed | ChannelHelpers.InviteAsWrittenDuplicates | ChannelHelpers.InviteIntendedKeepsOneRow |
| apps/backend/src/routes/api/channels/handlers.ts:87-99 | the listed channels keep the `tgId` column, read as a `bigint` (apps/backend/src/db/schema.ts:75), when they reach `c.json`; `JSON.stringify` throws on a `bigint` and the catch answers with an empty list | a user who administers any channel asks for their channels and receives `[]` | the user's channels, with `tgId` as text as `handleGetChannelsForRequest` sends it | not executed | ChannelHandlers.GetChannels | ChannelHandlers.GetChannelsIntended |
| apps/backend/src/routes/api/creatives/handlers.ts:56-71 | the listing query selects `dealCreativesTable.reviewNote`, which is `undefined` because `deal_creatives` has no such column (apps/backend/src/db/schema.ts:193-205); building the selection walks that `undefined` and throws, and the catch answers 500 | the advertiser of a deal asks for its creatives and receives 500 "Failed to fetch creatives" | the deal's creatives, highest version first | not executed; depends on the query builder walking the selection | CreativeHandlers.GetCreativesByDeal | CreativeHandlers.GetCreativesByDealIntended |
