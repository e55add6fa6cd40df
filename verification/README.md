# kdcli draft logic in Dafny

kdcli is a command-line client for the KidsDiary childcare-diary service. Two
scripts, `kd.py` (the full CLI) and `kidsdiary.py` (a smaller single-purpose
helper), build a "draft" diary entry and either create it or update the draft
already on the server. Around the HTTP calls sit three pieces of pure logic,
and this project models them and proves their properties:

- **Timestamps.** `datetime_0am` truncates a date to midnight. `epoch_millis`
  turns a naive JST wall clock into epoch milliseconds. `get_draft_payload`
  places six timestamps at fixed offsets from the target day's midnight.
- **Reconciliation.** `create_or_update_draft` decides, from the reply to the
  draft-list request, whether to issue nothing, one create or one update of the
  first listed draft. kidsdiary.py also fetches that draft's detail first.
- **Selection rules.** `nearest` picks today before 09:00 JST and tomorrow
  after. `get_last_photos(n)` takes the first `n` album entries and reverses
  them. The body temperature is drawn from a fixed range.

Modules:

- `Calendar` (calendar.dfy): proleptic Gregorian dates. Uses Python's ordinal
  numbering (0001-01-01 is day 1), day stepping, and the 1..9999 year range.
- `Clock` (clock.dfy): a naive datetime is a date plus microseconds since
  midnight. Defines `datetime + timedelta` (OverflowError becomes `None`),
  `datetime_0am`, `epoch_millis` (with `int()` truncation toward zero), and
  `today` / `tomorrow` / `nearest`.
- `Payload` (payload.dfy): the payload record, both `get_draft_payload`
  variants, the temperature text, and kidsdiary.py's child-id resolution.
- `Reconcile` (reconcile.dfy): both `create_or_update_draft`s and both
  `list_drafts`. Each returns the sequence of requests it issues and the
  exception it ends with.
- `Photos` (photos.dfy): `get_all_photos` and `get_last_photos`, as written and
  corrected (see Findings).
- `DraftCommand` (command.dfy): kd.py's `draft --create` flow, composed from
  the pieces above.
- `DraftStore` (store.dfy): an assumed model of the service's draft store. It
  is used to state the single-slot behaviour of reconciliation. Neither script
  contains it; the module's header lists the assumptions.
- `Faults`, `Wrappers`: exceptions as values, and `Option` / `Result`.

The current time, the random draws and every HTTP reply are parameters.
Requests appear in the results as values.

## Model

| member | source | states |
|---|---|---|
| Clock.Midnight | kd.py:32-36 | `datetime_0am` keeps the year, month and day, sets the time of day to zero, and lands within the day before the input (kidsdiary.py:24-28 is the same function) |
| Clock.MidnightIdempotent | kd.py:32-36 | truncating to midnight twice is the same as once |
| Clock.Add | kd.py:124-138 | `dt0am + timedelta` succeeds exactly when the result lies in years 1..9999 (otherwise OverflowError), and the result is the valid datetime whose absolute microsecond count is the input's plus the delta |
| Clock.AddCompose | kd.py:124-138 | adding two deltas one after the other is the same as adding their sum |
| Clock.EpochMillis | kd.py:39-42 | `epoch_millis` is the signed microsecond distance from the epoch to the wall clock read in the given zone, divided by 1000 and truncated toward zero; exact for whole-millisecond times |
| Clock.EpochIsZero | kd.py:39-42 | 1970-01-01 00:00 read as UTC is 0 ms |
| Clock.JstIsNineHoursAhead | kd.py:22-42 | with the JST default, `epoch_millis` of a whole-millisecond wall clock is its UTC reading minus 32,400,000 |
| Clock.EpochMillisShift | kd.py:39-42 | moving a whole-millisecond time by a whole-millisecond delta moves `epoch_millis` by exactly that many milliseconds |
| Clock.NextDayMillis | kd.py:39-42 | one day later is exactly 86,400,000 ms later |
| Clock.PublishExample | kd.py:39-42 | 2024-01-10 08:30 JST is 1704843000000 |
| Clock.Today | kd.py:45-46 | `today()` is the current JST wall clock, which the model takes as an input; the result is a valid datetime at that same instant |
| Clock.Tomorrow | kd.py:49-50 | `tomorrow` keeps the time of day and moves to the next ordinal; it fails only on 9999-12-31 |
| Clock.Nearest | kd.py:53-55 | `nearest` returns the given JST time when its hour is below 9, and otherwise the same time on the next day (failing only on 9999-12-31) |
| Payload.Assemble | kd.py:124-138 | the payload dictionary carries the given texts, photos and temperature with no draft id; it exists exactly when all six offsets stay in range; each timestamp is midnight's epoch milliseconds plus its offset |
| Payload.DefaultsReachable | kd.py:110-120 | with the default offsets the payload exists on every day except 0001-01-01, where 20:00 of the previous evening does not exist |
| Payload.DefaultsChronological | kd.py:110-120 | with the default offsets, sleep < awake < health < food < publish < pick-up |
| Payload.NextDayMidnightMillis | kd.py:124-128 | midnight of the next day is 86,400,000 ms after midnight of the given day |
| Payload.NextDayPayload | kd.py:124-138 | building the payload one day later moves every timestamp by 86,400,000 ms and changes no other field |
| Payload.TemperatureRoundTrip | kd.py:133 | reading the temperature text back gives the tenths it was written from |
| Payload.ParseRoundTrip | kd.py:133 | every "dd.d" text with a non-zero first digit is the text of the value read from it |
| Payload.KdTemperature | kd.py:95-96 | kd.py's temperature text reads back as the drawn tenths in [364, 371], beginning "36." or "37." |
| Payload.HelperTemperature | kidsdiary.py:78-80 | kidsdiary.py's temperature is "36." plus the chosen digit, i.e. tenths in [364, 368] |
| Payload.KdDraftPayload | kd.py:105-138 | with no child id it raises IndexError; otherwise it raises OverflowError exactly when an offset leaves the year range. On success: first child id, token, message, photos (empty when none given), menu, pick-up person, temperature from the draw, no draft id, and every timestamp at midnight plus its offset |
| Payload.KdDefaultsOrdered | kd.py:105-138 | kd.py with the default offsets succeeds on every day after 0001-01-01, and its timestamps are ordered |
| Payload.KdPublishExample | kd.py:105-128 | a kd.py draft for 2024-01-10, whatever the time of day, is published at 1704843000000 |
| Payload.NewHelper | kidsdiary.py:46-56 | the helper keeps the profile's first child id; a non-200 profile raises ValueError and an empty child list raises IndexError |
| Payload.HelperDraftPayload | kidsdiary.py:58-85 | kidsdiary.py's payload has no photos, the food menu "Milk and bread", the pick-up person "Father", the helper's child id and the temperature "36." followed by the digit `choice` picks, i.e. in [36.4, 36.8]; same range condition and timestamps as kd.py |
| Payload.HelperDefaultsOrdered | kidsdiary.py:58-85 | kidsdiary.py with the default offsets succeeds on every day after 0001-01-01 with ordered timestamps |
| Reconcile.KdCreateOrUpdate | kd.py:183-215 | without a child id nothing is issued; otherwise the list request comes first and every later request is a write, at most one of them. A non-200 reply, or no payload, ends the call after the list request with no exception. A write is issued exactly when there is a payload, the list reply is 200, and either there are no hits or a first draft exists. An update carries the payload with the first draft's id; a create carries the payload unchanged. There are no detail requests. It fails only on a missing child id or hits with an empty list |
| Reconcile.WithDraftId | kd.py:191 | the payload sent with an update carries the first draft's id, and no other field changes |
| Reconcile.KdUpdatesFirstDraft | kd.py:189-201 | with a 200 reply, hits and a listed draft, the only write is one update of the payload with the first draft's id |
| Reconcile.KdCreatesWhenNoDraft | kd.py:202-212 | with a 200 reply and no hits, the call issues the list request and one create of the unchanged payload |
| Reconcile.KdIgnoresLaterDrafts | kd.py:189-191 | replies that agree on status, hit count and first entry give the same requests |
| Reconcile.KdListDrafts | kd.py:162-174 | kd.py's `list_drafts` issues the list request, then, on a 200 reply with hits, one detail request per listed draft in list order; it never writes |
| Reconcile.HelperCreateOrUpdate | kidsdiary.py:90-127 | the requests are the list request, then the detail request for the first draft exactly when the reply is 200 with hits and a listed draft, then the writes: at most one, under the same conditions and with the same payloads as kd.py. A non-200 reply ends the call after the list request with no exception. It fails only on hits with an empty list |
| Reconcile.HelperListDrafts | kidsdiary.py:87-88 | kidsdiary.py's `list_drafts` never writes. It issues the list request, then the first draft's detail request exactly when the reply is 200 with hits and a listed draft; it raises IndexError exactly on hits with an empty list |
| Reconcile.HelperIgnoresLaterDrafts | kidsdiary.py:96-100 | replies that agree on status, hit count and first entry give the same requests |
| Reconcile.VariantsAgreeOnWrites | kidsdiary.py:90-127 | for the same child and token the two scripts issue the same writes and, given a payload, fail alike. Without a payload only kidsdiary.py fails, on hits with an empty list |
| Photos.AllPhotosAsWritten | kd.py:140-146 | `get_all_photos` as written returns the list only for a 200 reply with hits, otherwise None |
| Photos.LastPhotosAsWritten | kd.py:155-160 | `get_last_photos` as written raises TypeError exactly when `get_all_photos` gave None |
| Photos.NoPhotosRaises | kd.py:143-157 | an album with no photos makes `get_last_photos(0)` raise |
| Photos.AllPhotos | kd.py:140-146 | corrected: the listed photos for a 200 reply with hits, otherwise an empty list |
| Photos.PrefixSlice | kd.py:157 | `s[0:n]` is a prefix of length min(n, len) for n >= 0, and of length max(0, len + n) for negative n |
| Photos.Urls | kd.py:158 | one URL per photo, in the same order |
| Photos.Reverse | kd.py:159 | `s[::-1]` has the same length and element i is element len-1-i |
| Photos.LastPhotos | kd.py:155-160 | corrected `get_last_photos(n)`: min(n, len) URLs for n >= 0, element i being the URL of listed photo k-1-i |
| Photos.LastPhotosAgrees | kd.py:155-160 | the corrected version returns what the original returns whenever the original does not raise, and an empty list when there are no photos |
| Photos.LastPhotosNewestFirst | kd.py:157-159 | reversing the result gives the URLs of the first min(n, len) listed photos in list order |
| DraftCommand.DraftDay | kd.py:229 | with `--today` the draft day is the current time; otherwise it is `nearest()` |
| DraftCommand.CommandOnDay | kd.py:230-237 | with the corrected `get_last_photos` (see Findings): once the day is chosen, the album request comes first. If the payload cannot be built the command ends there with that exception; otherwise the reconciler's requests and outcome follow. Any write carries the selected photos, the message, the first child id and publication at 08:30 of that day |
| DraftCommand.CreateCommand | kd.py:228-237 | with the corrected `get_last_photos` (see Findings): when the day cannot be chosen, nothing is issued and OverflowError is raised. Otherwise it behaves as above for the chosen day: album request, then the payload's exception or the reconciler's requests and outcome, with at most one write |
| DraftCommand.CommandOutcome | kd.py:228-237 | with the corrected `get_last_photos` (see Findings), `draft --create` writes exactly when the day can be chosen, a child id is configured, the day is later than 0001-01-01, and the list reply is 200 with no hits or a first draft. It raises OverflowError on the day choice or on 0001-01-01, and IndexError on a missing child id or on hits with an empty list; otherwise it raises nothing |
| DraftCommand.PublishesOnNearestDay | kd.py:228-237 | with the corrected `get_last_photos` (see Findings), the draft is published at 08:30 the next day when created from 09:00 on without `--today`, and at 08:30 the same day otherwise |
| DraftCommand.UpdatesExistingDraft | kd.py:228-237 | with the corrected `get_last_photos` (see Findings), a draft on the server and a buildable payload, the command issues the photo list, the draft list and one update carrying the first draft's id |
| DraftCommand.CreateCommandAsWritten | kd.py:228-237 | `draft --create` as written: when the day cannot be chosen, nothing is issued and OverflowError is raised; when the album reply has no photos, the album request is the only request and TypeError is raised; with photos it is the corrected command |
| DraftCommand.NoPhotosBlocksDraft | kd.py:140-160 | for an account without photos, whenever the corrected command writes a draft, the command as written issues only the album request and raises TypeError |
| DraftStore.AfterReconcile | kd.py:183-212 | under the assumed service: an empty store gains exactly the payload as one draft; a non-empty store keeps its size and ids, its first draft gets the payload with its own id, and the rest is unchanged |
| DraftStore.SecondRunUpdatesSameDraft | kd.py:189-195 | under the assumed service, running the command twice creates at most one draft in all, and the second run overwrites the draft the first one created or updated |

## Left out

- HTTP: `post`, the `requests` calls, JSON encoding and decoding. Replies are parameters; requests are values in `Reconcile.Request`.
- HTTP replies that are only logged: the update, create and detail replies, and `get_draft`'s None on a non-200 reply (kd.py:176-181). They change nothing that is issued.
- Malformed replies: a missing `totalHits` or `draftId` key, or a detail reply that is not JSON (kidsdiary.py:103-104). The model assumes well-formed replies.
- Session storage and the environment: `load_config`, `save_config`, `remove_config`, the `USERNAME` / `PASSWORD` / `TOKEN` variables, the re-validation through `my_profile`, and the `userToken` check in `KidsDiaryCLI.__init__`. These are filesystem, environment and network I/O. The session is a `Payload.Config` value.
- Command-line wiring: argparse, `main`, `command_login`, `command_logout`, `command_version`, `command_photo` and `list_photos`. `list_photos` only logs, and it fails on None for the same reason as the Findings row. The `\n` unescaping of `--message` (kd.py:230) is not modelled; the message enters already unescaped.
- kidsdiary.py's `main` reads `args.text`, which its parser never defines (kidsdiary.py:140). That call chain is not modelled.
- Logging output of every function.
- `datetime.now` and `random`. The current JST time, the `randint` draw and the `random.choice` index are parameters, each with its stated range. `nearest` reads the clock up to twice in the source (kd.py:54-55); the model uses one reading, so a call straddling 09:00 or midnight is not modelled.
- The default `date=today()` of both `get_draft_payload`s is evaluated once, when the module loads. The model always passes the date explicitly.
- Clock.EpochMillis: does not model floating-point rounding of `total_seconds() * 1000`. The model uses the exact quotient, truncated toward zero as `int()` does. The two agree on whole-second inputs of the present era, which is what the payload timestamps are.
- Payload.Assemble: `healthTime` is kept as an integer. The source sends it as the decimal string `str(epoch_millis(...))`, while the other timestamps are numbers.
- Payload.TemperatureText: only renders values with two integral digits. That covers every temperature either script can produce; Python's float formatting is otherwise not modelled.
- `timezone` arguments other than the JST default are accepted by `Clock.EpochMillis` (any offset within a day), but no caller passes one.
- The `DraftStore` behaviour is an assumption about the remote service, not something the scripts enforce. Concurrent invocations (two creates racing on an empty list) are out of scope.
- In kd.py, `list_drafts` is a separate function that fetches every listed draft's detail. Only kidsdiary.py's `list_drafts` is `create_or_update_draft(None)`. The model follows each file.
- Spacing of the default timestamps: health (08:10) is strictly before food (08:15), and the model proves the strict order the code gives.

## Findings

| source | as written | input that shows it | evidently intended | confidence | as-written member | corrected member |
|---|---|---|---|---|---|---|
| kd.py:140-160 | `get_all_photos` returns only for a 200 reply with `totalHits > 0` and otherwise returns None; `get_last_photos` then slices None and raises TypeError. `command_draft` always calls it, with default 0 (kd.py:233) | album reply status 200, `totalHits` 0, empty list, `n` = 0: `draft --create` raises before any draft request | no photos means an empty URL list, and the draft is still created or updated | high; not executed | Photos.LastPhotosAsWritten (counterexample Photos.NoPhotosRaises); at command level DraftCommand.CreateCommandAsWritten (counterexample DraftCommand.NoPhotosBlocksDraft) | Photos.LastPhotos (agreement Photos.LastPhotosAgrees); at command level DraftCommand.CreateCommand (outcome DraftCommand.CommandOutcome) |
