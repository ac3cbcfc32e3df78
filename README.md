# Carpool bot: seat allocation and conversation protocol

A Telegram bot lets a group share cars. A user registers a driver by typing
"name seats". Other users pick a driver with free seats from a keyboard, and
each pick takes one seat. The bot keeps two database tables: `drivers`, with
one row per registration, and `chat_state`, with one stored state per chat. It
also keeps a per-user `user_data` dictionary. Each conversation is in one of
three states: `START`, `ADD_DRIVER` or `SELECT_DRIVER`.

This project models that core in Dafny:

- `wrappers.dfy`: `Option` and `Result`.
- `states.dfy` (module `States`): the three state constants.
- `parsing.dfy` (module `Parsing`): the driver-info text check, built from
  Python's `str.split()`, `str.isdigit()` and `int()`. It includes the round
  trip from a driver to the text a user types and back.
- `registry.dfy` (module `Registry`): the `drivers` table as a sequence of
  `(name, seats)` rows, in insertion order. Names are not keys, so a repeated
  name adds a second row. The module holds the filter of drivers offered for
  selection, the lookup of the first row with a name, the guarded seat claim,
  and the passenger countdown shown after a claim.
- `bot.dfy` (module `Bot`): class `Bot` holds the two tables, and class
  `UserContext` holds `user_data`. `UserContext.NoPassengers()` says no
  passenger dictionary is stored: the constructor and `Reset` establish it,
  `Start` keeps it, and `SelectDriverCallback` relies on it. Each handler is a method. Methods that
  change state state the whole new state in their contracts. `Bot.Valid()`
  holds two invariants: no seat count is negative, and START is the only
  state ever stored for a chat. The reason for the second one is that handlers
  return their next state to the framework but never write it to
  `chat_state`. Two client methods walk through the "Ivan, 3 seats" scenario
  and the malformed-input scenarios.
- `routing.dfy` (module `Routing`): the handler table of `main` as data. It
  also defines a first-match dispatcher. The dispatcher is an assumption about
  the conversation framework, whose code is not part of this model.

Behaviours of the code that the model keeps, which a reader may not expect:

- Driver names are not unique, and a claim looks up the first row with the
  name. A successful claim writes that row's count minus one into every row
  with the name, so a later row can gain seats
  (`Registry.SharedNameRaisesLaterRow`). Rows with the same name keep separate
  counts until then: if the first is full, a later one with seats is offered
  but every press of its button is answered "seats full"
  (`Bot.OfferedRowUnclaimable`).
- The selection keyboard always holds a Cancel button. So an empty table
  offers `[Cancel]`, not an empty list.
- The "no drivers" prompt depends on the table being empty, not on no driver
  having seats.
- Passengers are read from `user_data` with a fresh default and are never
  stored back. Each claim therefore sees an empty map, and the list shown
  holds only the caller (`Bot.SelectDriverCallback`, `Bot.ClaimShowsOnlyCaller`). Nothing ties passenger
  lists to seat counts.
- `reset` returns no state.
- The seat check and the seat update are two separate statements. There is no
  atomic check-and-decrement.

## Model

| member | source | states |
|---|---|---|
| `Parsing.IsSpace` | driver_bot.py:157 | the separators of the whitespace split include space, tab and newline, and never a decimal digit |
| `Parsing.Split` | driver_bot.py:157 | every word returned by the whitespace split is non-empty and holds no whitespace |
| `Parsing.SplitKeepsEveryCharacter` | driver_bot.py:157 | the words of the split, put back together, are the text with its whitespace removed: no other character is lost or reordered |
| `Parsing.SplitUnwords` | driver_bot.py:157 | splitting words that were joined with spaces gives back the same words |
| `Parsing.DigitsValueShowNat` | driver_bot.py:163 | `int(str(n)) == n`: the seat count parser inverts decimal notation |
| `Parsing.IsDigits` | driver_bot.py:163 | a seat count that passes the digit test is a single non-empty word without whitespace |
| `Parsing.DigitsValue` | driver_bot.py:163 | `int()` of a digit string is positive exactly when one of its digits is not '0', so "0" and "00" are refused |
| `Parsing.DigitsValueLeadingZero` | driver_bot.py:163 | leading zeros do not change the value: "03" registers 3 seats |
| `Parsing.ParseDriverInfo` | driver_bot.py:157-167 | accepted exactly when there are two words and the second is all digits with a non-zero digit; refused for word count exactly when there are not two words; an accepted name is the first word, the accepted seat count is `int()` of the second word, and it is positive |
| `Parsing.ParseFormatRoundTrip` | driver_bot.py:157-169 | the text "name seats" typed for any registrable driver is accepted and yields that driver |
| `Parsing.ParseIgnoresSpacing` | driver_bot.py:157-167 | any text is accepted or refused, with the same driver or error, exactly as its words joined by single spaces |
| `Parsing.OneWordRefused` | driver_bot.py:157-160 | "Ivan" is refused for its word count |
| `Parsing.WordSeatsRefused` | driver_bot.py:162-167 | "Ivan three" is refused for its seat count |
| `Registry.Available` | driver_bot.py:117-118 | the offered drivers are exactly the rows with seats > 0, and there are no more of them than rows |
| `Registry.AvailableAppend` | driver_bot.py:116-124 | the filter keeps table order: filtering a table split in two gives the two filtered halves in order |
| `Registry.FirstIndex` | driver_bot.py:188-189 | the lookup finds nothing exactly when no row has the name; otherwise it finds a row with the name and no earlier row has it |
| `Registry.SetSeats` | driver_bot.py:194 | the update by name gives the new count to every row with the name and leaves all other rows as they were |
| `Registry.PassengersOf` | driver_bot.py:196 | the passengers of a name with no entry are the empty list; otherwise they are the stored list |
| `Registry.Claim` | driver_bot.py:188-196 | a claim keeps every row's name and the table's length; a failed claim changes neither the table nor the map; a successful one reports the driver's passengers as the old list plus the caller and stores that list under the driver's name |
| `Registry.ClaimSucceedsIff` | driver_bot.py:188-192 | a claim succeeds exactly when the first row with the name has a free seat |
| `Registry.ClaimSuccessEffect` | driver_bot.py:190-196 | after a successful claim, every row with the name holds the first row's count minus one and rows with other names are unchanged; the caller is appended to that driver's passengers, and no other passenger entry changes |
| `Registry.ClaimFailureChangesNothing` | driver_bot.py:188-225 | a failed claim changes neither the table nor the passenger map; it reports an invalid choice exactly when no row has the name, and a full car exactly when some row has it |
| `Registry.SharedNameRaisesLaterRow` | driver_bot.py:188-194 | with rows ("A", 5) and ("A", 1), a claim on "A" leaves both rows at 4 seats, so the second row gains 3 |
| `Registry.ClaimFirstRowTakesOneSeat` | driver_bot.py:188-196 | the per-row claim never adds seats to a row, keeps names, succeeds exactly when the first row with the name has a seat, and then takes one seat from that first row only and records the caller for the name |
| `Registry.ClaimRowTakesOfferedSeat` | driver_bot.py:188-196 | a claim on the row a button was built from succeeds for every offered row, takes one seat from that row only and records the caller for its name |
| `Registry.ClaimFirstRowAgreesOnUniqueName` | driver_bot.py:188-196 | for a name held by one row, the per-row claim and the claim as written give the same result |
| `Registry.ClaimKeepsSeatsNonNegative` | driver_bot.py:192-194 | a claim never makes a seat count negative |
| `Registry.SeatsCountDown` | driver_bot.py:188-196 | for a uniquely named driver with n seats, k claims succeed min(k, n) times, the driver is left with n minus the successes, and every other row is unchanged |
| `Registry.Countdown` | driver_bot.py:200 | one line per passenger in claim order; the first is shown with the already decremented count minus one, and each next one with one less |
| `Registry.CountdownDecreasing` | driver_bot.py:200 | the numbers in the passenger list strictly decrease down the list |
| `Registry.LastSeatShownNegative` | driver_bot.py:190-200 | a claim that takes the last seat shows its only passenger with -1 seats |
| `Registry.IntendedCountdown` | driver_bot.py:200 | one line per passenger in claim order; the last is shown with the current count, and each earlier one with one more |
| `Registry.IntendedCountdownMatchesHistory` | driver_bot.py:200 | in the intended countdown, each passenger is shown with the count left right after their own claim, which is never negative |
| `Bot.CallbackData` | driver_bot.py:121-124 | a driver button sends back the driver's name and nothing else; Cancel sends data matching `'^cancel$'` |
| `Bot.OfferedRowUnclaimable` | driver_bot.py:188-189 | the button built at line 121 sends only the name; with rows ("A", 0) and ("A", 3), the button for A with 3 seats is offered, and pressing it is refused as seats full |
| `Bot.Offer` | driver_bot.py:116-124 | the keyboard has one button more than there are drivers with free seats; the last is Cancel; an empty table gives just Cancel |
| `Bot.OfferShape` | driver_bot.py:116-124 | every button but the last is a driver in the table with free seats, and every such driver has a button |
| `Bot.StoredPassengers` | driver_bot.py:183 | the read of the passenger map gives the empty default when no passenger dictionary is stored, and a non-empty map only from a stored one |
| `Bot.OfferButtonsGoToSelection` | driver_bot.py:116-124 | under first-match dispatch, every keyboard button, Cancel included, goes to the driver selection handler in SELECT_DRIVER |
| `Bot.UserContext.constructor` | driver_bot.py:183 | user data starts empty, holding no passenger dictionary |
| `Bot.Bot.constructor` | driver_bot.py:17-30 | both tables start empty, and the invariant holds |
| `Bot.Bot.Start` | driver_bot.py:57-93 | returns the chat's stored state, which is always START; inserts START when the chat had no row; records the start time in user data; stores no passengers in user data that had none; leaves the drivers table unchanged |
| `Bot.Bot.AddDriver` | driver_bot.py:96-106 | moves to ADD_DRIVER |
| `Bot.Bot.SelectDriver` | driver_bot.py:109-136 | offers exactly the drivers with free seats in table order, then Cancel; shows the "no drivers" prompt exactly when the table is empty; returns SELECT_DRIVER in every case |
| `Bot.Bot.AddDriverCallback` | driver_bot.py:155-178 | refused text leaves the table unchanged and stays in ADD_DRIVER; accepted text appends exactly one row (name, seats) after the existing rows and returns START; a count beyond sqlite's INTEGER range raises and inserts nothing |
| `Bot.Bot.SelectDriverCallback` | driver_bot.py:181-225 | user data holds no passengers, so the claim is made against the empty map; the table becomes the claim's result; user data is not written; returns START whatever the outcome; seat counts stay non-negative |
| `Bot.Bot.Cancel` | driver_bot.py:228-235 | returns START and changes nothing |
| `Bot.Bot.Reset` | driver_bot.py:139-152 | clears user data, so it holds no passengers; writes START for the chat only if it has a row; never changes the drivers table |
| `Bot.ClaimShowsOnlyCaller` | driver_bot.py:183-196 | a successful claim against the empty map lists only the caller as passenger |
| `Routing.MatchesPattern` | driver_bot.py:245 | a callback matches `'^p$'` only when it is p or p followed by one newline; p itself matches |
| `Routing.Matches` | driver_bot.py:242-253 | a command handler accepts only its own command, a callback handler only button presses and a text handler only text; a callback handler without a pattern accepts every button press |
| `Routing.StateRoutes` | driver_bot.py:243-252 | only the three states have handlers; only ADD_DRIVER takes text; no state lists the start or reset handler |
| `Routing.Dispatch` | driver_bot.py:241-254 | before /start only the /start command is handled; the start handler is never chosen once the conversation is active; reset is chosen only for the reset callback |
| `Routing.FirstMatch` | driver_bot.py:241-254 | chooses nothing exactly when no route accepts the update; otherwise chooses the handler of the first route that accepts it |
| `Routing.MenuButtonsRouted` | driver_bot.py:243-253 | from START, the add, select and reset menu buttons reach their own handlers |
| `Routing.CancelNeverDispatched` | driver_bot.py:250-251 | in SELECT_DRIVER, under first-match dispatch, the cancel handler is never chosen, and every button press goes to driver selection |
| `Routing.CorrectedSelectRouting` | driver_bot.py:250-251 | with Cancel and reset listed before the catch-all, "cancel" cancels, "reset" resets, and any other button press selects a driver |
| `Routing.TextOnlyWhileAddingDriver` | driver_bot.py:243-253 | a text message finds a handler exactly when the conversation is in ADD_DRIVER |

## Findings

| source | as written | input that shows it | evidently intended | confidence | as-written member | corrected member |
|---|---|---|---|---|---|---|
| driver_bot.py:200 | the i-th passenger is shown with `seats - i`, and `seats` has already been decremented | register "Ivan 1", then claim Ivan: "0 seats left" is followed by the passenger shown with -1 seats | each passenger is shown with the seats left right after their claim: the current count plus the number of later passengers | high, not executed | `Registry.LastSeatShownNegative` | `Registry.IntendedCountdownMatchesHistory` |
| driver_bot.py:194 | the seat update selects rows by name, so every row with the name gets the first row's count minus one | register "A 5" and "A 1", then claim A: the second car goes from 1 seat to 4 | only the row that was looked up loses a seat | medium, not executed | `Registry.SharedNameRaisesLaterRow` | `Registry.ClaimFirstRowTakesOneSeat` |
| driver_bot.py:188-189 | a driver button (line 121) carries only the name, and the claim looks up the first row with it | register "A 1", claim A, then register "A 3": the button "A (3 мест)" is shown, and every press of it is answered "seats full" | a shown button claims the row it was built from | medium, not executed | `Bot.OfferedRowUnclaimable` | `Registry.ClaimRowTakesOfferedSeat` |
| driver_bot.py:250-251 | the unfiltered `select_driver_callback` is listed before the `^cancel$` handler | in SELECT_DRIVER, press Cancel: the data "cancel" is looked up as a driver name and answered "invalid driver choice" | Cancel reaches `cancel` | medium (assumes the framework dispatches to the first matching handler), not executed | `Routing.CancelNeverDispatched` | `Routing.CorrectedSelectRouting` |

## Left out

- Telegram I/O: message texts, `answer()`, and keyboard markup. The model keeps only the offered choices, the prompt kind and the claim outcome. The refusals at driver_bot.py:159 and 164 and the `answer()` at 230 call coroutines without `await`, so those messages are never sent. This does not affect any modelled state.
- sqlite plumbing: connection, cursor and SQL text. Both tables start empty, and `fetchone()` is taken to return rows in insertion order.
- The drivers table's `chat_id` column is never set, so the table is shared by all chats. The model has one table for the whole bot.
- `time.time()`: the start time is the parameter `now`. Logging, the `.env` token, `Application` and `run_polling` are not modelled.
- Concurrency: claims run one after another. The check and the update of a claim (driver_bot.py:188-194) are not atomic, and races are not modelled.
- Conversation framework behaviour: `Routing.Dispatch` assumes first-match order and reads the state's handlers before the fallbacks. How the framework stores a handler's returned state, or the `None` that `reset` returns, is not modelled. The client methods call handlers directly.
- Parsing.ParseDriverInfo: accepts only ASCII digits. Python's `str.isdigit` also accepts other Unicode digits, which `int()` may then refuse.
- Bot.Bot.SelectDriverCallback: requires that user data holds no passenger dictionary, which every handler keeps. So the in-place update of a stored dictionary at driver_bot.py:196 is never reached and is not modelled.
- The handlers keep the claim as written (`Registry.Claim`). The per-row claims `Registry.ClaimFirstRow` and `Registry.ClaimRow` are stated beside it and are not used by `Bot`. `Registry.ClaimFirstRow` still looks up the first row with the name, so it does not make the offered row behind a full one claimable; only a button that identifies its row (`Registry.ClaimRow`) does.
- Bot.Bot.SelectDriverCallback: the username is a string. Telegram users without a username (`None`) are not modelled.
- The commented-out code at driver_bot.py:185-187 and 203-214.
