# cardswap-discord: a verified model of the card-exchange pipeline

This project models the card-exchange pipeline of HHiepz/cardswap-discord, a
Discord bot. Users submit prepaid phone cards through the bot, a settlement
provider (card2k) buys them, and the bot keeps a history table of every
submission.

The model covers these parts:

- **Submission cogs.** `/nap_the_cao` and its older copy `/nap-the` check
  that the command is enabled, the carrier and face value are enabled in the
  settings, and the card's serial and PIN fit the carrier's format. They
  show a confirmation view, send the card to the provider, and add one
  `pending` history row when the provider accepts it.
- **Status sweep.** The task in `tasks/nap_the_cao_task.py`, and its older
  copy `tasks/check_history_exchange_card.py`, polls the provider about every
  `pending` row on a timer. It resolves the row as `success`,
  `wrong_amount` or `failed`, commits, and then tries once to edit the
  message that announced the submission.
- **Fee aggregation.** In the fee service and in the older helpers, this
  covers:
  - the cheapest item;
  - the minimum fee per carrier, sorted by fee;
  - one carrier's face-value → fee map, with its first minimal entry.
- **Provider client.** URLs, the MD5 signature input, the `charging` and
  `check` payloads, and how the health check is read.
- **Settings lookup.** The dotted-key walk over the YAML tree.
- **Setup command.** `/setup-bot` replaces the partner credentials.
- **The history row** and the request-id helpers.

## How the model is set up

- **Dictionaries.** A Python dict is an insertion-ordered sequence of pairs
  (`OrderedDict`). Assigning to a present key replaces its value in place;
  a new key is appended. `dict(sorted(..., key=value))` is a stable
  insertion sort (`OrderedDict.SortByValue`).
- **Fees.** Fees are integer hundredths, so `int(f * 10) / 10` is truncation
  toward zero to a multiple of 10 (`FeeSchedule.Trunc`).
- **HTTP and MD5.** Every HTTP call is an oracle value: a decoded reply, or
  None when the request or its decoding raised. The MD5 hex digest is a
  function parameter `md5`. The UUID text behind the request ids is a
  parameter too.
- **Exceptions.** An exception the source raises on purpose or by accident
  is a value:
  - `Err(...)` in the cogs;
  - `None` from `NapTheCao.CheckTelco` / `CheckAmount` when a settings value
    is not a mapping;
  - `Raise` in `NapThe.ValidatedSetup`;
  - in `CardStatusTask.CheckHistoryTick`, the loop stops.
- **Database.** `Database.Store` is a class. Its `history` and `credentials`
  fields are the two tables. A commit assigns the field; a rollback leaves
  it as it was. Ghost counters record the sessions opened and closed.
- **The sweep.** `CardStatusTask.Sweep` is a `for` loop. It is proved
  against `Swept` (the table afterwards) and `SweepEvents` (a ghost log of
  every check request, commit and message edit, in order). The lemmas below
  `SweepEvents` state what the sweep does to each row.
- **Message location.** Discord is a `Platform` value, with three parts:
  - the channels in the bot's cache;
  - each guild's text channels, in order;
  - the (channel, message) pairs that `fetch_message` finds.

  `LocateMessage` is the nested scan with its breaks, and is proved equal to
  `Located`.
- **Both sweep copies in one class.** The two differ only in how they are
  configured and which client signs the request. `Sweep` takes the client
  as a parameter. The older copy's extra failure modes are in
  `CheckHistoryTick`. A missing `provider` key raises when the first
  credential row is complete, because only then does the setup check read
  the key. It also raises when a row is pending. No credential row raises
  when a row is pending.
- **The helper's session.** `/nap-the`'s submit helper (helpers/api.py)
  opens a second session. Its `finally` closes that session only after the
  credential row has been read. With an empty credential table that
  session stays open. The same happens when the `provider` key is absent.
  `NapThe.ProcessCardExchange` states this in its
  session counters.
- **Where the docstrings disagree with the code, the model follows the
  code:**
  - `get_telco_fee_info` with no matching item returns a dict of three
    Nones (`NoFeeInfo`), not None;
  - `get_all_fee_min_telco_api` returns an empty dict, not None, on bad
    data.

## Model

| member | source | states |
|---|---|---|
| Records.ParseStatus | database/models/history_exchange_card.py:24-28 | a stored status name reads back as the status it names; exactly the four enum names are legal |
| Records.StatusNameRoundTrip | database/models/history_exchange_card.py:24-28 | writing a status to the enum column and reading it back gives the same status |
| Records.NewRecord | database/models/history_exchange_card.py:10-28 | a new row has `value` and `card_value` 0 when they are not given and is `pending` by default; the given columns are stored as given |
| Config.CheckParsed | utils/config.py:38-44 | a load succeeds exactly when the YAML parser produced a mapping, and yields that mapping unchanged |
| Config.Split | utils/config.py:98 | `key.split(".")` has at least one segment, none of its segments contains a dot, and joining them with "." gives the key back |
| Config.SplitJoin | utils/config.py:98 | splitting the "."-join of dot-free segments gives those segments back |
| Config.GetConfigValue | utils/config.py:94-110 | the value at the key's full dotted path when every segment names an entry of a mapping; otherwise, or when loading failed, the default |
| Config.DotFreeKeyIsTopLevel | utils/config.py:98-107 | a key without dots finds exactly the top-level entry of that name |
| Config.DottedTopLevelKeyNeverRead | utils/config.py:98-107 | a top-level entry whose name contains a dot never affects a lookup of that name |
| Ids.PrefixSlice | utils/string_utils.py:9 | Python's `s[:n]` is a prefix of s, of length min(n, len s) for n ≥ 0 and counted from the end for negative n |
| Ids.GenerateUuid | utils/string_utils.py:4-9 | the short id is the first 8 characters of the UUID text, the long id the whole text |
| Ids.ShortIsPrefixOfLong | utils/string_utils.py:9 | for one UUID, the short id is a prefix of the long one |
| Ids.CanonicalUuidLengths | utils/string_utils.py:8-9 | for a canonical 36-character UUID, the id has 8 or 36 characters |
| Ids.RandomString | helpers/helper.py:28-36 | the first `length` characters of the UUID text, followed by "_" and `extra` exactly when `extra` is non-empty |
| Ids.DefaultRandomStringLength | helpers/helper.py:28-36 | with the default arguments the id has 32 characters and is a prefix of the UUID text |
| Provider.NewClient | api/card2k/exchange_card.py:10-13 | the client's provider is the configured one, or https://card2k.com when the setting is absent |
| Provider.FeeUrlShape | api/card2k/exchange_card.py:20 | the fee URL is the provider, then `/chargingws/v2/getfee?partner_id=`, then the partner id |
| Provider.SignInput | api/card2k/exchange_card.py:45-47 | the signed text is the partner key, then the code, then the serial, in that order and nothing else |
| Provider.Request | api/card2k/exchange_card.py:48-57 | the payload carries the card fields as given, the client's partner id, the signature over key+code+serial and the command |
| Provider.SubmitAndCheckDifferOnlyInCommand | api/card2k/exchange_card.py:85-94 | the check payload is the submit payload with `command` changed from "charging" to "check"; the signatures are equal |
| Provider.CheckStatusApi | api/card2k/exchange_card.py:106-128 | None exactly when the request failed; false when the reply has no `status`; true exactly when the status is the text "active" |
| OrderedDict.Put | services/card2k/fee_service.py:85 | after `d[k] = v`, k maps to v and every other key's lookup is unchanged; a present key keeps its place, and a new key is appended |
| OrderedDict.SortByValueSorted | services/card2k/fee_service.py:53 | the sorted items are in non-decreasing order of value and are a permutation of the input |
| OrderedDict.SortKeepsLookups | services/card2k/fee_service.py:53 | sorting a dictionary keeps its keys distinct, its size and every key's value |
| Text.Upper | cogs/nap_the_cao.py:128 | upper-casing keeps the length and maps each character on its own |
| Text.UpperIdempotent | cogs/nap_the_cao.py:128 | upper-casing twice is upper-casing once |
| Text.ParseId | tasks/nap_the_cao_task.py:132 | an id parses exactly when it is a non-empty string of digits |
| Text.ParseDigits | tasks/nap_the_cao_task.py:132 | the decimal text of n parses back to n |
| FeeSchedule.Trunc | services/card2k/fee_service.py:27 | the truncated fee is a multiple of 10 (one decimal) within one step of the fee, on the side of zero |
| FeeSchedule.TruncMonotone | services/card2k/fee_service.py:51 | truncation preserves the order of fees |
| FeeSchedule.TruncIdempotent | services/card2k/fee_service.py:27 | truncating a truncated fee changes nothing |
| FeeSchedule.FirstMin | services/card2k/fee_service.py:22-25 | the index of the first item of least fee among those with a fee; None exactly when no item has one |
| FeeSchedule.FirstMinUnique | services/card2k/fee_service.py:25 | there is only one first minimal item |
| FeeSchedule.PerTelcoStepKeeps | services/card2k/fee_service.py:45-52 | one loop step keeps "each carrier seen maps to its stored minimal fee" even though the raw fee is compared with the stored truncated one |
| FeeSchedule.MinFeePerTelco | services/card2k/fee_service.py:44-52 | the map holds exactly the carriers that have an item with a fee, each with its (optionally truncated) minimal fee, keys distinct |
| FeeSchedule.LastFee | services/card2k/fee_service.py:80-85 | the fee of the last matching item with a given face value, or None when there is none |
| FeeSchedule.FeeDictLastWins | services/card2k/fee_service.py:80-85 | the face-value map has distinct keys and maps each face value to the fee of the last matching item that has it |
| FeeSchedule.BuildFeeDict | services/card2k/fee_service.py:79-85 | the loop builds exactly the face-value map of the matching items |
| FeeSchedule.MinEntry | services/card2k/fee_service.py:89-94 | the least fee of the map and the first face value, in insertion order, that has it |
| FeeSchedule.TelcoFeeInfo | services/card2k/fee_service.py:74-100 | three Nones exactly when no item matches; otherwise the least fee, its first face value and the whole map, or an error when that face value is `None` and `int()` raises |
| Card2kFees.FeeService.GetCheapestTelcoRate | services/card2k/fee_service.py:10-31 | None when the fee list is unusable or no item has a fee; otherwise the carrier of the first minimal item and its fee truncated to one decimal |
| Card2kFees.FeeService.GetMinFeesByTelco | services/card2k/fee_service.py:33-55 | None when the list is unusable or no item has both a carrier and a fee; otherwise exactly those carriers, each with its truncated minimum, in ascending fee order |
| Card2kFees.FeeService.GetTelcoFeeInfo | services/card2k/fee_service.py:57-115 | None exactly when the list is unusable (empty, missing, or an item has a `status` key); otherwise the carrier's fee information as `TelcoFeeInfo` states |
| LegacyApi.GetFeeApi | helpers/api.py:20-41 | no request without a credential row with a partner id and a non-empty provider; otherwise the decoded reply of the fee URL |
| LegacyApi.GetFeeTelcoApiMin | helpers/api.py:45-63 | both fields None without data or without an item that has both a fee and a carrier; otherwise the first such item of least fee, untruncated |
| LegacyApi.GetAllFeeMinTelcoApi | helpers/api.py:67-79 | an empty map without data; otherwise each carrier with an item that has a fee, mapped to its untruncated minimum, sorted by fee |
| LegacyApi.GetFeeTelcoApi | helpers/api.py:83-113 | three Nones without data or without a matching item; otherwise the least fee, its first face value and the map |
| LegacyApi.ApiUrl | helpers/api.py:123 | an empty provider setting falls back to https://card2k.com |
| LegacyApi.ExchangeCardRequest | helpers/api.py:117-140 | the submit request goes to provider + /chargingws/v2 with a fresh 32-character request id, the first row's partner id, an MD5 over key+code+serial, and "charging" |
| LegacyApi.CheckCardStatusRequest | helpers/api.py:154-176 | the check request carries the supplied request id, the same signature, and "check" |
| LegacyApi.CheckRepeatsSubmission | helpers/api.py:124-173 | checking with the request id that was submitted sends the submitted payload with only `command` changed |
| Database.FirstRow | cogs/nap-the.py:218 | `query(Card2k).first()` is None exactly on an empty table, otherwise the first row |
| SetupBot.CredentialsAfter | cogs/setup_bot.py:23-50 | a too-long id or key leaves the table alone; success leaves exactly the new row; a failed delete rolls back to the old table; a failed insert leaves it empty |
| SetupBot.SetUp | cogs/setup_bot.py:19-58 | refused before any session when too long; otherwise one session, opened and closed on every path, with the table as `CredentialsAfter` says |
| SetupBot.BoundaryLengths | cogs/setup_bot.py:23 | 255 characters are accepted, 256 refused, for the id and for the key |
| SetupBot.SetupReplacesAll | cogs/setup_bot.py:38-42 | after a successful setup the table holds one row, the given credentials |
| Submission.PendingRecord | cogs/nap_the_cao.py:219-243 | no reply is an API error; a status outside {1, 2, 99} is refused; otherwise exactly one pending row with the submitted fields, the cog's provider setting as `server`, and the reply's request and transaction ids |
| Submission.RefusedStatusCreatesNothing | cogs/nap_the_cao.py:222-225 | a refused status never yields a row |
| Submission.ConfirmationView.DisableAll | cogs/nap_the_cao.py:270-271 | every button ends disabled |
| Submission.ConfirmationView.Confirm | cogs/nap_the_cao.py:264-276 | only the command's author proceeds, with every button disabled first; anyone else changes nothing |
| Submission.ConfirmationView.Cancel | cogs/nap_the_cao.py:279-289 | only the command's author cancels, disabling every button; anyone else changes nothing |
| Submission.ConfirmationView.OnTimeout | cogs/nap_the_cao.py:291-294 | a timeout disables every button |
| NapTheCao.CheckTelco | cogs/nap_the_cao.py:104-111 | true exactly when `card_types[telco]` exists and is truthy; raises when `card_types` is not a mapping |
| NapTheCao.PyIndex | cogs/nap_the_cao.py:119 | Python list indexing: defined exactly for −len ≤ k < len, the k-th element for k ≥ 0 |
| NapTheCao.CheckAmount | cogs/nap_the_cao.py:113-121 | for a mapping of face values, true exactly when the amount is a key with a truthy value; for a list, false when the amount is not an element, else the truthiness of the item at that index, raising when the index is out of range; false for an unknown carrier; raises when `card_amounts` is not a mapping or the carrier's entry is text, a number, a boolean or null |
| NapTheCao.CheckCodeSerial | cogs/nap_the_cao.py:123-158 | true exactly when the upper-cased carrier is one of the 12 in the table, code and serial are alphanumeric, and their lengths are among the carrier's PIN and serial lengths |
| NapTheCao.ViettelFormat | cogs/nap_the_cao.py:132 | for alphanumeric input, Viettel accepts any serial of 11 or 14 with any PIN of 13 or 15 |
| NapTheCao.CarrierCaseIgnored | cogs/nap_the_cao.py:128 | the carrier's case does not matter |
| NapTheCao.SerialLengthBounds | cogs/nap_the_cao.py:131-155 | a serial shorter than 9 or longer than 16 is refused for every carrier |
| NapTheCao.UnknownCarrierRefused | cogs/nap_the_cao.py:146-147 | a carrier outside the table is refused |
| NapTheCao.Command | cogs/nap_the_cao.py:66-102 | each outcome, stated both ways: disabled exactly when `enabled` is falsy; admin-only exactly when restricted to a non-admin; each refusal exactly when every earlier check passed and that check returned false; the generic error exactly when the carrier or the amount check raised after the earlier checks passed; confirmation exactly when all checks pass |
| NapTheCao.ProcessCardExchange | cogs/nap_the_cao.py:202-251 | sends the signed "charging" payload with an 8-character request id; the history grows by exactly the pending row when accepted, with the `provider` setting or https://card2k.com as `server`, and is rolled back otherwise |
| NapThe.ValidatedData | cogs/nap-the.py:205-215 | passes exactly when the carrier and then the amount are enabled; the carrier refusal comes first |
| NapThe.ValidatedSetup | cogs/nap-the.py:217-229 | passes exactly when the first credential row has a non-empty id and key and the provider is non-empty; a missing provider key raises |
| NapThe.Command | cogs/nap-the.py:111-144 | each outcome both ways: the data validator's refusal is shown with its own reason; the setup validator's refusal, with its own reason, exactly when the data checks passed; only logging exactly when a validator raised, the setup validator only after the data checks passed; confirmation exactly when both pass |
| NapThe.NoCardFormatCheck | cogs/nap-the.py:119-138 | every Viettel card whose serial is shorter than 11 characters is confirmed by `/nap-the` but refused for its format by `/nap_the_cao` |
| NapThe.ProcessCardExchange | cogs/nap-the.py:146-203 | no request without a credential row or without a `provider` key; otherwise the signed request and at most one new pending row, whose `server` is the `provider` setting; the cog's session is closed on every path, and the helper's session only when both exist |
| Reconciliation.PollInterval | tasks/nap_the_cao_task.py:20-25 | the interval is `delay_time`, 60 by default, raised to 30 when smaller |
| Reconciliation.Resolve | tasks/nap_the_cao_task.py:60-101 | no reply, 99 and 4 leave the row; 1 and 2 give success / wrong_amount with the declared value; others give failed and keep `card_value`; the submission columns never change |
| Reconciliation.ResolveExample | tasks/nap_the_cao_task.py:72-77 | status 1 declaring 50 000 gives a success row worth 50 000 |
| Reconciliation.FailureReason | tasks/nap_the_cao_task.py:263-274 | the provider's message when it is non-empty, otherwise the fixed fallback text |
| Reconciliation.EmbedFor | tasks/nap_the_cao_task.py:163-173 | the edit content matches the new status, and a failure carries the failure reason |
| Reconciliation.FirstHolder | tasks/nap_the_cao_task.py:147-157 | the earliest channel holding the message, or None when no channel holds it |
| Reconciliation.Located | tasks/nap_the_cao_task.py:130-161 | an edit target always holds the message; the stored channel wins when it is cached and holds it |
| Reconciliation.ScanTakesFirstHolder | tasks/nap_the_cao_task.py:146-161 | without a direct hit the target is the first holder in guild-and-channel order, and there is none exactly when no channel holds the message |
| Reconciliation.LocateMessage | tasks/nap_the_cao_task.py:126-161 | the nested scan with its breaks finds exactly `Located` |
| Reconciliation.CardStatusTask.constructor | tasks/nap_the_cao_task.py:16-33 | the loop runs, with a session open, exactly in "api" mode, at `PollInterval` |
| Reconciliation.CardStatusTask.Sweep | tasks/nap_the_cao_task.py:40-101 | the table becomes `Swept` and the log grows by `SweepEvents`; the credentials and sessions are untouched |
| Reconciliation.CardStatusTask.SweepRow | tasks/nap_the_cao_task.py:49-101 | one row: only a pending one is asked about, resolved and committed before its single edit attempt |
| Reconciliation.CardStatusTask.CheckHistoryTick | tasks/check_history_exchange_card.py:37-106 | the setup check only logs, except that a missing `provider` key raises once the first credential row is complete; while a row is pending, a missing row or key raises too; a raise ends the loop with nothing changed; otherwise one sweep, signed with the first row, whose log is empty when nothing is pending |
| Reconciliation.CardStatusTask.UnloadAsWritten | tasks/nap_the_cao_task.py:35-37 | in callback mode unloading raises, because no session was ever opened |
| Reconciliation.CardStatusTask.Unload | tasks/nap_the_cao_task.py:35-37 | unloading stops the loop and leaves no session open, in either mode |
| Reconciliation.NothingPendingNothingSwept | tasks/nap_the_cao_task.py:43-47 | with no pending row a sweep changes nothing and sends nothing |
| Reconciliation.SweepFrame | tasks/nap_the_cao_task.py:43-101 | only pending rows change, a pending row whose reply does not resolve it stays as it was, and no row's submission columns change |
| Reconciliation.ResweepKeepsResolved | tasks/nap_the_cao_task.py:43 | a second sweep leaves every resolved row as it is, and changes nothing when the first resolved every pending row |
| Reconciliation.UnreadReplies | tasks/nap_the_cao_task.py:43-58 | the replies given for rows that are not pending affect neither the table nor the log |
| Reconciliation.SweepEventsOfRow | tasks/nap_the_cao_task.py:49-101 | the events about row i in a sweep are exactly that row's own events |
| Reconciliation.SweepRowEvents | tasks/nap_the_cao_task.py:60-101 | no event at all for a resolved row; only the check request for no reply, 99 or 4; otherwise the request, the commit of the new status, then one edit exactly when the message is located |

## Left out

- HTTP, JSON decoding and Discord's interface are oracle values. This
  covers `requests`, `raise_for_status`, `fetch_message`, `edit`, sending
  and the followup message. The embeds' text and layout are not modelled;
  only which embed is chosen is.
- Concurrency and timing are not modelled: `async`/`await`, `tasks.loop`,
  `before_loop`/`wait_until_ready`, view timeouts as a timer, and logging.
- Floating point is not modelled: fees are integer hundredths, with
  `int(f*10)/10` as truncation.
- `str.upper` and `str.isalnum` are ASCII only; Unicode letters and digits
  are not modelled.
- `ParseId`: accepts only plain digits. Python's `int()` also takes
  surrounding spaces, a sign and underscores.
- `PollInterval`: takes `delay_time` as an integer already. The `int()`
  conversion of another YAML type, and its exception, are not modelled.
- `FeeItem`: the face value is an optional integer. For a face value that
  is not an integer (such as 10000.0), `str(value)` and `int()` are not
  modelled.
- `FeeService`: the fetched body is a list of fee items or None. A decoded
  JSON object, which `get_fee_exchange_card` returns unchanged, is not
  modelled. In the source, an object with a `status` key makes the guard
  refuse it; an object without one makes `item.get` raise
  AttributeError.
- `GetFeeApi`: a body that is not a list is treated like a failed request.
  A missing `provider` key raises in the source and is not modelled. The
  session it opens is never closed; the model does not track it.
- `NapTheCao.ProcessCardExchange`: treats the `provider` setting as text
  or absent. A null or non-text YAML value, which the cog would store as
  `server` unchanged, is not modelled.
- `CardStatusTask.Sweep`: assumes every commit succeeds. In the source, a
  failing `session.commit()` in the sweep raises out of the loop body with
  no rollback and ends the task. `CardStatusTask.CheckHistoryTick` makes the
  same assumption.
- `CardStatusTask.CheckHistoryTick`: does not count the short-lived session
  that `check_card_status` opens per pending row, nor the one it leaves
  open when it raises.
- `Submission.PendingRecord`: a key missing from a reply the cog reads is
  caught as `MissingKey`. In the sweep, the keys it reads are a
  precondition instead (`WellFormedCheckReply`).
- The keys the sweep reads are `status`, `declared_value` for 1 and 2, and
  `message` for any other code. A KeyError there is not modelled.
- `NapThe.ValidatedSetup`: models only the original cog's database check.
  The environment-variable check of `tasks/nap_the_cao_task.py`
  (`_validated_setup`, which only logs) is not modelled.
- Timestamps, the autoincrement id and SQL filtering are not modelled: a
  row's identity is its position, and "pending" filtering is a status test.
- Python's equality of `True` and `1` as dictionary keys is not modelled:
  `Key` separates names from numbers.
- The `choices` lists that the slash commands offer are not modelled, since
  they are only Discord presentation.
- `lru_cache`, the file existence and size checks in `load_yaml_config`,
  `get_data_file_yml`, `utils/env.py` and startup are not modelled.
  `CheckParsed` models only the checks made on the parsed value.
- `OrderedDict.SortByValue`: insertion sort is stable like Python's sort.
  Stability is not stated as a lemma; sortedness, permutation and lookups
  are.
- The submit helper's GET with a JSON body and the client's POST are
  modelled the same way: only the URL and the payload are modelled.

## Findings

| source | as written | input that shows it | evidently intended | confidence | as-written member | corrected member |
|---|---|---|---|---|---|---|
| tasks/nap_the_cao_task.py:35-37 | `cog_unload` closes `self.session`, which is assigned only in "api" mode | `card_status_check.type` not "api" (callback mode), then unloading the cog | stop the loop and close the session only where one was opened | not executed; high | Reconciliation.CardStatusTask.UnloadAsWritten | Reconciliation.CardStatusTask.Unload |
