/**
 * The handlers of driver_bot.py as operations on the bot's stored data: the
 * `drivers` and `chat_state` tables of its database, and the per-user
 * `context.user_data` dictionary that the conversation framework hands to
 * every handler. Messages sent back to Telegram are reduced to what decides
 * them (the offered choices, the claim outcome).
 */
module Bot {
  import opened Wrappers
  import opened Parsing
  import opened Registry
  import opened States
  import opened Routing

  /** The largest value sqlite3 binds as an INTEGER; a larger Python int raises OverflowError. */
  const SQLITE_MAX_INTEGER: int := 0x7FFF_FFFF_FFFF_FFFF

  /** A value stored in `context.user_data`. */
  datatype UserValue = StartTime(time: real) | Passengers(byDriver: map<string, seq<string>>)

  /** `context.user_data`: the dictionary the framework keeps for the user who sent an update. */
  class UserContext {
    var data: map<string, UserValue>

    /**
     * No passenger dictionary is stored: no handler ever writes the
     * 'passengers' key, so this holds from the first update on.
     */
    ghost predicate NoPassengers()
      reads this
    {
      "passengers" !in data
    }

    constructor ()
      ensures data == map[] && NoPassengers()
    {
      data := map[];
    }
  }

  /** `context.user_data.get('passengers', {})` (driver_bot.py:183). */
  function StoredPassengers(data: map<string, UserValue>): (m: map<string, seq<string>>)
    ensures "passengers" !in data ==> m == map[]
    ensures m != map[] ==> "passengers" in data
  {
    if "passengers" in data && data["passengers"].Passengers? then data["passengers"].byDriver else map[]
  }

  /** A button of the driver selection keyboard (driver_bot.py:116-124). */
  datatype Choice = DriverChoice(name: string, seats: int) | CancelChoice

  /**
   * The callback data a button sends back when pressed: a driver button
   * carries the driver's name only, not the row it was built from.
   */
  function CallbackData(c: Choice): (d: string)
    ensures c.DriverChoice? ==> d == c.name
    ensures c.CancelChoice? ==> MatchesPattern("cancel", d)
  {
    match c
    case DriverChoice(name, _) => name
    case CancelChoice => "cancel"
  }

  /** The prompt above the selection keyboard (driver_bot.py:126-136). */
  datatype SelectPrompt = NoDriversPrompt | ChooseDriverPrompt

  function DriverChoices(rows: seq<Driver>): (cs: seq<Choice>)
    ensures |cs| == |rows|
    ensures forall i :: 0 <= i < |rows| ==> cs[i] == DriverChoice(rows[i].name, rows[i].seats)
  {
    seq(|rows|, i requires 0 <= i < |rows| => DriverChoice(rows[i].name, rows[i].seats))
  }

  /** The selection keyboard: one button per driver with free seats, in table order, then Cancel. */
  function Offer(rows: seq<Driver>): (cs: seq<Choice>)
    ensures |cs| == |Available(rows)| + 1
    ensures cs[|cs| - 1] == CancelChoice
    ensures rows == [] ==> cs == [CancelChoice]
  {
    DriverChoices(Available(rows)) + [CancelChoice]
  }

  /**
   * The keyboard always ends in Cancel; every other button is a driver of the
   * table with free seats, and every such driver has a button.
   */
  lemma OfferShape(rows: seq<Driver>)
    ensures forall k :: 0 <= k < |Offer(rows)| - 1 ==>
      Offer(rows)[k].DriverChoice? && Offer(rows)[k].seats > 0 && Driver(Offer(rows)[k].name, Offer(rows)[k].seats) in rows
    ensures forall d :: d in rows && d.seats > 0 ==> DriverChoice(d.name, d.seats) in Offer(rows)
  {
  }

  lemma OfferStep(rows: seq<Driver>, i: nat)
    requires i < |rows|
    ensures DriverChoices(Available(rows[..i + 1])) ==
      DriverChoices(Available(rows[..i])) + if rows[i].seats > 0 then [DriverChoice(rows[i].name, rows[i].seats)] else []
  {
    assert rows[..i + 1] == rows[..i] + [rows[i]];
    AvailableAppend(rows[..i], [rows[i]]);
    assert Available([rows[i]]) == if rows[i].seats > 0 then [rows[i]] else [];
  }

  /** A claim against a table holding one row. */
  lemma ClaimSingleRow(d: Driver, user: string)
    ensures Claim([d], map[], d.name, user) ==
      if d.seats > 0 then ClaimResult([Driver(d.name, d.seats - 1)], map[d.name := [user]], Claimed(d.name, d.seats - 1, [user]))
      else ClaimResult([d], map[], SeatsFull)
  {
    assert FirstIndex([d], d.name) == Some(0);
    if d.seats > 0 {
      assert SetSeats([d], d.name, d.seats - 1) == [Driver(d.name, d.seats - 1)];
      assert PassengersOf(map[], d.name) + [user] == [user];
    }
  }

  /** The bot's database: the drivers table and the chat_state table. */
  class Bot {
    /** The rows of the drivers table, in insertion order. */
    var drivers: seq<Driver>
    /** chat_state: the stored state for each chat id. */
    var chatState: map<int, int>

    /**
     * Seat counts are never negative, and the only state ever stored for a
     * chat is START (handlers' returned states are not written back).
     */
    ghost predicate Valid()
      reads this
    {
      && SeatsNonNegative(drivers)
      && forall c :: c in chatState ==> chatState[c] == START
    }

    /** Both tables are created empty (driver_bot.py:17-32). */
    constructor ()
      ensures Valid() && drivers == [] && chatState == map[]
    {
      drivers := [];
      chatState := map[];
    }

    /**
     * The /start command (driver_bot.py:57-93): returns the chat's stored state,
     * inserting START first when the chat has none, and records the session's
     * start time in user data.
     */
    method Start(chatId: int, now: real, ctx: UserContext) returns (state: int)
      requires Valid()
      modifies this`chatState, ctx
      ensures Valid() && drivers == old(drivers)
      ensures chatId in old(chatState) ==> state == old(chatState)[chatId]
      ensures state == START
      ensures chatState == old(chatState)[chatId := START]
      ensures ctx.data == old(ctx.data)["start_time" := StartTime(now)]
      ensures old(ctx.NoPassengers()) ==> ctx.NoPassengers()
    {
      if chatId in chatState {
        state := chatState[chatId];
      } else {
        state := START;
        chatState := chatState[chatId := state];
      }
      ctx.data := ctx.data["start_time" := StartTime(now)];
      chatState := chatState[chatId := state];
    }

    /** The "add driver" button (driver_bot.py:96-106): asks for the driver's info. */
    method AddDriver() returns (state: int)
      ensures state == ADD_DRIVER
    {
      state := ADD_DRIVER;
    }

    /**
     * The "select driver" button (driver_bot.py:109-136): lists the drivers with
     * free seats and a Cancel button. The "no drivers" prompt is chosen when the
     * table is empty, not when no driver has seats left.
     */
    method SelectDriver() returns (state: int, prompt: SelectPrompt, options: seq<Choice>)
      ensures state == SELECT_DRIVER
      ensures options == Offer(drivers)
      ensures prompt == NoDriversPrompt <==> drivers == []
    {
      var rows := drivers;
      options := [];
      var i := 0;
      while i < |rows|
        invariant 0 <= i <= |rows|
        invariant options == DriverChoices(Available(rows[..i]))
      {
        OfferStep(rows, i);
        if rows[i].seats > 0 {
          options := options + [DriverChoice(rows[i].name, rows[i].seats)];
        }
        i := i + 1;
      }
      assert rows[..i] == rows;
      options := options + [CancelChoice];
      if rows == [] {
        prompt := NoDriversPrompt;
      } else {
        prompt := ChooseDriverPrompt;
      }
      state := SELECT_DRIVER;
    }

    /**
     * A text message while adding a driver (driver_bot.py:155-178). Refused text
     * changes nothing and asks again (ADD_DRIVER); accepted text appends one row
     * and returns START. A seat count beyond sqlite's INTEGER range makes the
     * insert raise, so the handler returns no state (None) and inserts nothing.
     */
    method AddDriverCallback(text: string) returns (state: Option<int>)
      requires Valid()
      modifies this`drivers
      ensures Valid()
      ensures ParseDriverInfo(text).Failure? ==> state == Some(ADD_DRIVER) && drivers == old(drivers)
      ensures ParseDriverInfo(text).Success? ==>
        var info := ParseDriverInfo(text).value;
        if info.seats <= SQLITE_MAX_INTEGER then
          state == Some(START) && drivers == old(drivers) + [Driver(info.name, info.seats)]
        else
          state == None && drivers == old(drivers)
    {
      match ParseDriverInfo(text)
      case Failure(_) =>
        state := Some(ADD_DRIVER);
      case Success(info) =>
        if info.seats > SQLITE_MAX_INTEGER {
          state := None;
        } else {
          drivers := drivers + [Driver(info.name, info.seats)];
          state := Some(START);
        }
    }

    /**
     * A driver button pressed while selecting (driver_bot.py:181-225): the
     * passenger map read from user data is always the empty default, the claim
     * is made against the table and that map, the table keeps the claim's new
     * rows, the map is not stored back, and the conversation returns to START
     * whatever the outcome.
     */
    method SelectDriverCallback(ctx: UserContext, data: string, username: string) returns (state: int, outcome: ClaimOutcome)
      requires Valid() && ctx.NoPassengers()
      modifies this`drivers
      ensures Valid()
      ensures state == START
      ensures var r := Claim(old(drivers), map[], data, username);
        drivers == r.rows && outcome == r.outcome
    {
      var passengers := StoredPassengers(ctx.data);
      assert passengers == map[];
      ClaimKeepsSeatsNonNegative(drivers, passengers, data, username);
      var r := Claim(drivers, passengers, data, username);
      drivers := r.rows;
      outcome := r.outcome;
      state := START;
    }

    /** The Cancel button (driver_bot.py:228-235): no change, back to START. */
    method Cancel() returns (state: int)
      ensures state == START
    {
      state := START;
    }

    /**
     * The reset button (driver_bot.py:139-152): clears the user's data and
     * writes START for the chat if it has a row. Seats already claimed are not
     * given back, and the handler returns no state.
     */
    method Reset(chatId: int, ctx: UserContext)
      requires Valid()
      modifies this`chatState, ctx
      ensures Valid() && drivers == old(drivers)
      ensures ctx.data == map[] && ctx.NoPassengers()
      ensures chatState == if chatId in old(chatState) then old(chatState)[chatId := START] else old(chatState)
    {
      ctx.data := map[];
      if chatId in chatState {
        chatState := chatState[chatId := START];
      }
    }
  }

  /**
   * Every button of the selection keyboard, Cancel included, is handed to the
   * driver selection handler while selecting, under first-match dispatch.
   */
  lemma OfferButtonsGoToSelection(rows: seq<Driver>)
    ensures forall c :: c in Offer(rows) ==>
      Dispatch(Some(SELECT_DRIVER), CallbackUpdate(CallbackData(c))) == Some(SelectDriverCallbackHandler)
  {
    forall c | c in Offer(rows)
      ensures Dispatch(Some(SELECT_DRIVER), CallbackUpdate(CallbackData(c))) == Some(SelectDriverCallbackHandler)
    {
      CancelNeverDispatched(CallbackUpdate(CallbackData(c)));
    }
  }

  /**
   * A row with free seats behind an exhausted row of the same name is offered
   * but can never be claimed: its button carries only the name, and the claim
   * looks up the first row with that name, which is full.
   */
  lemma OfferedRowUnclaimable(user: string)
    ensures var rows := [Driver("A", 0), Driver("A", 3)];
      && DriverChoice("A", 3) in Offer(rows)
      && Claim(rows, map[], CallbackData(DriverChoice("A", 3)), user).outcome == SeatsFull
  {
    var rows := [Driver("A", 0), Driver("A", 3)];
    assert Available(rows) == [Driver("A", 3)] by {
      assert rows[1..] == [Driver("A", 3)];
      assert rows[1..][1..] == [];
    }
    assert Offer(rows)[0] == DriverChoice("A", 3);
    assert FirstIndex(rows, "A") == Some(0);
  }

  /** With nothing stored, the passenger list shown after a claim holds only the caller. */
  lemma ClaimShowsOnlyCaller(rows: seq<Driver>, name: string, user: string)
    requires Claim(rows, map[], name, user).outcome.Claimed?
    ensures Claim(rows, map[], name, user).outcome.passengers == [user]
  {
  }

  /** A fresh bot whose table holds the driver "Ivan" with three seats, registered from the text "Ivan 3". */
  method RegisterIvan() returns (bot: Bot, ctx: UserContext)
    ensures fresh(bot) && fresh(ctx) && bot.Valid()
    ensures bot.drivers == [Driver("Ivan", 3)] && ctx.NoPassengers()
  {
    bot := new Bot();
    ctx := new UserContext();
    var state := bot.Start(1, 0.0, ctx);
    var ivan := DriverInfo("Ivan", 3);
    assert FormatDriverInfo(ivan) == "Ivan 3";
    ParseFormatRoundTrip(ivan);
    var added := bot.AddDriverCallback("Ivan 3");
    assert added == Some(START);
    var _, _, options := bot.SelectDriver();
    assert options == [DriverChoice("Ivan", 3), CancelChoice];
  }

  /**
   * Ivan's three seats are claimed one by one; a fourth claim finds the car
   * full, a reset in between leaves the seat count where the claims put it,
   * and a full driver is no longer offered.
   */
  method IvanScenario()
  {
    var bot, ctx := RegisterIvan();

    ClaimSingleRow(Driver("Ivan", 3), "alice");
    var _, first := bot.SelectDriverCallback(ctx, "Ivan", "alice");
    assert first == Claimed("Ivan", 2, ["alice"]) && bot.drivers == [Driver("Ivan", 2)];
    ClaimSingleRow(Driver("Ivan", 2), "bob");
    var _, second := bot.SelectDriverCallback(ctx, "Ivan", "bob");
    assert second == Claimed("Ivan", 1, ["bob"]) && bot.drivers == [Driver("Ivan", 1)];

    bot.Reset(1, ctx);
    assert bot.drivers == [Driver("Ivan", 1)];

    ClaimSingleRow(Driver("Ivan", 1), "carol");
    var _, third := bot.SelectDriverCallback(ctx, "Ivan", "carol");
    assert third == Claimed("Ivan", 0, ["carol"]) && bot.drivers == [Driver("Ivan", 0)];
    assert Countdown(third.passengers, third.remaining) == [Line("carol", -1)];

    ClaimSingleRow(Driver("Ivan", 0), "dave");
    var _, fourth := bot.SelectDriverCallback(ctx, "Ivan", "dave");
    assert fourth == SeatsFull && bot.drivers == [Driver("Ivan", 0)];

    var _, prompt, after := bot.SelectDriver();
    assert prompt == ChooseDriverPrompt && after == [CancelChoice];
  }

  /** One word, or a seat count that is not a number, is refused and asked again. */
  method MalformedInfoScenario()
  {
    var bot := new Bot();
    OneWordRefused();
    var one := bot.AddDriverCallback("Ivan");
    assert one == Some(ADD_DRIVER) && bot.drivers == [];
    WordSeatsRefused();
    var word := bot.AddDriverCallback("Ivan three");
    assert word == Some(ADD_DRIVER) && bot.drivers == [];
  }
}
