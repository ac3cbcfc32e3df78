/**
 * The `drivers` table (driver_bot.py:24-30) as a sequence of rows in insertion
 * order, and the pure parts of the handlers that read it: the filter of
 * drivers offered for selection (driver_bot.py:117-118), the lookup of the
 * first row with a given name (driver_bot.py:188-189), the guarded seat claim
 * (driver_bot.py:190-196) and the passenger countdown (driver_bot.py:200).
 * `driver_name` is not a key: registering a name twice adds a second row.
 */
module Registry {
  import opened Wrappers

  /** One row of the drivers table. */
  datatype Driver = Driver(name: string, seats: int)

  predicate SeatsNonNegative(rows: seq<Driver>) {
    forall i :: 0 <= i < |rows| ==> rows[i].seats >= 0
  }

  /** The drivers offered for selection: those with free seats, in table order. */
  function Available(rows: seq<Driver>): (r: seq<Driver>)
    ensures |r| <= |rows|
    ensures forall d :: d in r <==> d in rows && d.seats > 0
  {
    if rows == [] then []
    else
      var rest := Available(rows[1..]);
      assert forall d :: d in rows <==> d == rows[0] || d in rows[1..];
      if rows[0].seats > 0 then [rows[0]] + rest else rest
  }

  /** The filter keeps table order: rows listed earlier are offered earlier. */
  lemma {:induction false} AvailableAppend(a: seq<Driver>, b: seq<Driver>)
    ensures Available(a + b) == Available(a) + Available(b)
  {
    if a == [] {
      assert a + b == b;
    } else {
      assert (a + b)[1..] == a[1..] + b;
      AvailableAppend(a[1..], b);
    }
  }

  /** The row that `SELECT ... WHERE driver_name = ?` followed by fetchone() yields: the first one with that name. */
  function FirstIndex(rows: seq<Driver>, name: string): (r: Option<nat>)
    ensures r.None? <==> forall i :: 0 <= i < |rows| ==> rows[i].name != name
    ensures r.Some? ==> r.value < |rows| && rows[r.value].name == name
    ensures r.Some? ==> forall j :: 0 <= j < r.value ==> rows[j].name != name
  {
    if rows == [] then None
    else if rows[0].name == name then Some(0)
    else match FirstIndex(rows[1..], name)
      case None => None
      case Some(i) => Some(i + 1)
  }

  /** `UPDATE drivers SET seats = ? WHERE driver_name = ?`: every row with the name gets the new count. */
  function SetSeats(rows: seq<Driver>, name: string, seats: int): (r: seq<Driver>)
    ensures |r| == |rows|
    ensures forall i :: 0 <= i < |rows| && rows[i].name != name ==> r[i] == rows[i]
    ensures forall i :: 0 <= i < |rows| && rows[i].name == name ==> r[i] == Driver(name, seats)
  {
    seq(|rows|, i requires 0 <= i < |rows| =>
      if rows[i].name == name then Driver(name, seats) else rows[i])
  }

  /** What the user is told after choosing a driver. */
  datatype ClaimOutcome =
    | Claimed(driver: string, remaining: int, passengers: seq<string>)  // driver_bot.py:197-202
    | SeatsFull                                                          // driver_bot.py:215-219
    | InvalidChoice                                                      // driver_bot.py:220-224

  datatype ClaimResult = ClaimResult(rows: seq<Driver>, passengers: map<string, seq<string>>, outcome: ClaimOutcome)

  /** The passengers already recorded for `name`, `passengers.get(name, [])`. */
  function PassengersOf(passengers: map<string, seq<string>>, name: string): (ps: seq<string>)
    ensures name !in passengers ==> ps == []
    ensures name in passengers ==> ps == passengers[name]
  {
    if name in passengers then passengers[name] else []
  }

  /**
   * select_driver_callback (driver_bot.py:188-196) on the table `rows` and the
   * passenger map `passengers`: `user` claims a seat with the driver `name`.
   */
  function Claim(rows: seq<Driver>, passengers: map<string, seq<string>>, name: string, user: string): (r: ClaimResult)
    ensures |r.rows| == |rows|
    ensures forall k :: 0 <= k < |rows| ==> r.rows[k].name == rows[k].name
    ensures !r.outcome.Claimed? ==> r.rows == rows && r.passengers == passengers
    ensures r.outcome.Claimed? ==>
      && r.outcome.driver == name
      && r.outcome.passengers == PassengersOf(passengers, name) + [user]
      && r.passengers == passengers[name := r.outcome.passengers]
  {
    match FirstIndex(rows, name)
    case None => ClaimResult(rows, passengers, InvalidChoice)
    case Some(i) =>
      if rows[i].seats > 0 then
        var left := rows[i].seats - 1;
        var list := PassengersOf(passengers, name) + [user];
        ClaimResult(SetSeats(rows, name, left), passengers[name := list], Claimed(name, left, list))
      else
        ClaimResult(rows, passengers, SeatsFull)
  }

  /** The first row of the table with this name, when it has a free seat. */
  predicate FirstRowHasSeat(rows: seq<Driver>, name: string) {
    exists i :: 0 <= i < |rows| && rows[i].name == name && rows[i].seats > 0
      && forall j :: 0 <= j < i ==> rows[j].name != name
  }

  /** A claim succeeds exactly when the first row with the name has a free seat. */
  lemma ClaimSucceedsIff(rows: seq<Driver>, passengers: map<string, seq<string>>, name: string, user: string)
    ensures Claim(rows, passengers, name, user).outcome.Claimed? <==> FirstRowHasSeat(rows, name)
  {
  }

  /**
   * A successful claim: every row with the name drops to the first row's count
   * minus one, rows with other names are untouched, the user is appended to
   * the driver's passengers, and no other passenger entry changes.
   */
  lemma ClaimSuccessEffect(rows: seq<Driver>, passengers: map<string, seq<string>>, name: string, user: string, i: nat)
    requires i < |rows| && rows[i].name == name && rows[i].seats > 0
    requires forall j :: 0 <= j < i ==> rows[j].name != name
    ensures var r := Claim(rows, passengers, name, user);
      && r.outcome == Claimed(name, rows[i].seats - 1, PassengersOf(passengers, name) + [user])
      && |r.rows| == |rows|
      && (forall k :: 0 <= k < |rows| && rows[k].name == name ==> r.rows[k] == Driver(name, rows[i].seats - 1))
      && (forall k :: 0 <= k < |rows| && rows[k].name != name ==> r.rows[k] == rows[k])
      && r.passengers.Keys == passengers.Keys + {name}
      && r.passengers[name] == PassengersOf(passengers, name) + [user]
      && (forall n :: n in passengers && n != name ==> r.passengers[n] == passengers[n])
  {
  }

  /** An unknown name, or a first row without seats: neither the table nor the map changes. */
  lemma ClaimFailureChangesNothing(rows: seq<Driver>, passengers: map<string, seq<string>>, name: string, user: string)
    requires !FirstRowHasSeat(rows, name)
    ensures var r := Claim(rows, passengers, name, user);
      && r.rows == rows && r.passengers == passengers
      && (r.outcome == InvalidChoice <==> forall k :: 0 <= k < |rows| ==> rows[k].name != name)
      && (r.outcome == SeatsFull <==> exists k :: 0 <= k < |rows| && rows[k].name == name)
  {
    ClaimSucceedsIff(rows, passengers, name, user);
  }

  /** Seat counts never go negative: the only decrement is guarded by seats > 0. */
  lemma ClaimKeepsSeatsNonNegative(rows: seq<Driver>, passengers: map<string, seq<string>>, name: string, user: string)
    requires SeatsNonNegative(rows)
    ensures SeatsNonNegative(Claim(rows, passengers, name, user).rows)
  {
  }

  /**
   * The update by name reaches every row with that name, so when a name is
   * registered twice a claim copies the first row's count, minus one, into the
   * second: a second car registered with 1 seat is left with 4.
   */
  lemma SharedNameRaisesLaterRow(user: string)
    ensures Claim([Driver("A", 5), Driver("A", 1)], map[], "A", user).rows == [Driver("A", 4), Driver("A", 4)]
  {
    var rows := [Driver("A", 5), Driver("A", 1)];
    assert FirstIndex(rows, "A") == Some(0);
    var r := SetSeats(rows, "A", 4);
    assert r[0] == Driver("A", 4) && r[1] == Driver("A", 4);
  }

  /**
   * A claim on the row at index `i` itself, as a button that identified its
   * row would allow: only that row loses a seat.
   */
  function ClaimRow(rows: seq<Driver>, passengers: map<string, seq<string>>, i: nat, user: string): (r: ClaimResult)
    requires i < |rows|
    ensures |r.rows| == |rows|
  {
    var name := rows[i].name;
    if rows[i].seats > 0 then
      var left := rows[i].seats - 1;
      var list := PassengersOf(passengers, name) + [user];
      ClaimResult(rows[i := Driver(name, left)], passengers[name := list], Claimed(name, left, list))
    else
      ClaimResult(rows, passengers, SeatsFull)
  }

  /**
   * The claim as intended for a table whose names repeat: only the row that
   * was looked up loses a seat.
   */
  function ClaimFirstRow(rows: seq<Driver>, passengers: map<string, seq<string>>, name: string, user: string): (r: ClaimResult)
    ensures |r.rows| == |rows|
  {
    match FirstIndex(rows, name)
    case None => ClaimResult(rows, passengers, InvalidChoice)
    case Some(i) => ClaimRow(rows, passengers, i, user)
  }

  /**
   * The intended claim never adds seats to any row; a successful one takes
   * exactly one seat from the first row with the name, which had a free seat,
   * leaves every other row as it was and records the caller for that name.
   */
  lemma ClaimFirstRowTakesOneSeat(rows: seq<Driver>, passengers: map<string, seq<string>>, name: string, user: string)
    ensures var r := ClaimFirstRow(rows, passengers, name, user);
      && (forall k :: 0 <= k < |rows| ==> r.rows[k].name == rows[k].name && r.rows[k].seats <= rows[k].seats)
      && (r.outcome.Claimed? <==> FirstRowHasSeat(rows, name))
      && (r.outcome.Claimed? ==>
            exists i :: 0 <= i < |rows| && rows[i].name == name && rows[i].seats > 0
              && (forall j :: 0 <= j < i ==> rows[j].name != name)
              && r.rows == rows[i := Driver(name, rows[i].seats - 1)])
      && (r.outcome.Claimed? ==> r.passengers == passengers[name := PassengersOf(passengers, name) + [user]])
      && (!r.outcome.Claimed? ==> r.rows == rows && r.passengers == passengers)
  {
    var f := FirstIndex(rows, name);
    if FirstRowHasSeat(rows, name) {
      var i :| 0 <= i < |rows| && rows[i].name == name && rows[i].seats > 0
        && forall j :: 0 <= j < i ==> rows[j].name != name;
      assert !(f.value < i) && !(i < f.value);
    }
    if f.Some? && rows[f.value].seats > 0 {
      assert rows[f.value].name == name;
    }
  }

  /**
   * Every row with a free seat can be claimed through its own button: the
   * claim succeeds, takes one seat from that row only and records the caller.
   */
  lemma ClaimRowTakesOfferedSeat(rows: seq<Driver>, passengers: map<string, seq<string>>, i: nat, user: string)
    requires i < |rows| && rows[i] in Available(rows)
    ensures var r := ClaimRow(rows, passengers, i, user);
      && r.outcome == Claimed(rows[i].name, rows[i].seats - 1, PassengersOf(passengers, rows[i].name) + [user])
      && r.rows[i] == Driver(rows[i].name, rows[i].seats - 1)
      && (forall k :: 0 <= k < |rows| && k != i ==> r.rows[k] == rows[k])
      && r.passengers == passengers[rows[i].name := PassengersOf(passengers, rows[i].name) + [user]]
  {
  }

  /** For a name held by one row only, the written claim and the intended one coincide. */
  lemma ClaimFirstRowAgreesOnUniqueName(rows: seq<Driver>, passengers: map<string, seq<string>>, name: string, user: string, i: nat)
    requires i < |rows| && rows[i].name == name
    requires forall j :: 0 <= j < |rows| && j != i ==> rows[j].name != name
    ensures ClaimFirstRow(rows, passengers, name, user) == Claim(rows, passengers, name, user)
  {
    var f := FirstIndex(rows, name);
    assert f == Some(i);
    if rows[i].seats > 0 {
      assert SetSeats(rows, name, rows[i].seats - 1) == rows[i := Driver(name, rows[i].seats - 1)];
    }
  }

  /** The number of successful claims among a series of claims by `users` on `name`, and the table afterwards. */
  datatype Run = Run(rows: seq<Driver>, successes: nat)

  /**
   * Claims by `users`, one after another, on the driver `name`. The table
   * persists between claims; the passenger map does not, since each claim reads
   * it afresh from user data where it is never stored (driver_bot.py:183).
   */
  function ClaimEach(rows: seq<Driver>, name: string, users: seq<string>): Run
    decreases |users|
  {
    if users == [] then Run(rows, 0)
    else
      var r := Claim(rows, map[], name, users[0]);
      var rest := ClaimEach(r.rows, name, users[1..]);
      Run(rest.rows, rest.successes + if r.outcome.Claimed? then 1 else 0)
  }

  function Min(a: int, b: int): int {
    if a <= b then a else b
  }

  /**
   * A driver whose name is unique in the table, registered with `n` seats:
   * out of k claims min(k, n) succeed, and the driver is left with n minus
   * the successes; every other row is untouched.
   */
  lemma {:induction false} SeatsCountDown(rows: seq<Driver>, name: string, users: seq<string>, i: nat)
    requires i < |rows| && rows[i].name == name && rows[i].seats >= 0
    requires forall j :: 0 <= j < |rows| && j != i ==> rows[j].name != name
    ensures var run := ClaimEach(rows, name, users);
      && run.successes == Min(|users|, rows[i].seats)
      && |run.rows| == |rows|
      && run.rows[i] == Driver(name, rows[i].seats - run.successes)
      && forall j :: 0 <= j < |rows| && j != i ==> run.rows[j] == rows[j]
    decreases |users|
  {
    if users != [] {
      var r := Claim(rows, map[], name, users[0]);
      if rows[i].seats > 0 {
        ClaimSuccessEffect(rows, map[], name, users[0], i);
      } else {
        ClaimFailureChangesNothing(rows, map[], name, users[0]);
      }
      SeatsCountDown(r.rows, name, users[1..], i);
    }
  }

  /** One line of the passenger list shown after a claim. */
  datatype Line = Line(passenger: string, seats: int)

  /**
   * The passenger list of driver_bot.py:200: the passengers in claim order, the
   * i-th (from 1) shown with `seats - i`, where `seats` is the count already
   * decremented by the current claim.
   */
  function Countdown(passengers: seq<string>, seats: int): (lines: seq<Line>)
    ensures |lines| == |passengers|
    ensures forall i :: 0 <= i < |lines| ==> lines[i].passenger == passengers[i]
    ensures |lines| > 0 ==> lines[0].seats == seats - 1
    ensures forall i :: 0 < i < |lines| ==> lines[i].seats == lines[i - 1].seats - 1
  {
    seq(|passengers|, i requires 0 <= i < |passengers| => Line(passengers[i], seats - (i + 1)))
  }

  /** The numbers shown strictly decrease down the list. */
  lemma CountdownDecreasing(passengers: seq<string>, seats: int, i: nat, j: nat)
    requires i < j < |passengers|
    ensures Countdown(passengers, seats)[i].seats > Countdown(passengers, seats)[j].seats
  {
  }

  /**
   * The last passenger is shown with one seat fewer than the driver has left:
   * when the claim takes the last seat, the only listed passenger is shown with -1.
   */
  lemma LastSeatShownNegative(rows: seq<Driver>, name: string, user: string, i: nat)
    requires i < |rows| && rows[i].name == name && rows[i].seats == 1
    requires forall j :: 0 <= j < i ==> rows[j].name != name
    ensures var r := Claim(rows, map[], name, user);
      && r.outcome == Claimed(name, 0, [user])
      && Countdown(r.outcome.passengers, r.outcome.remaining) == [Line(user, -1)]
  {
  }

  /**
   * The countdown as intended: each passenger is shown with the seats left
   * right after their own claim, that is, the current count plus the number of
   * passengers who claimed after them.
   */
  function IntendedCountdown(passengers: seq<string>, seats: int): (lines: seq<Line>)
    ensures |lines| == |passengers|
    ensures forall i :: 0 <= i < |lines| ==> lines[i].passenger == passengers[i]
    ensures |lines| > 0 ==> lines[|lines| - 1].seats == seats
    ensures forall i :: 0 < i < |lines| ==> lines[i].seats == lines[i - 1].seats - 1
  {
    seq(|passengers|, i requires 0 <= i < |passengers| => Line(passengers[i], seats + |passengers| - (i + 1)))
  }

  /**
   * For a driver that started with `total` seats and whose passengers are
   * listed in claim order, the i-th line of the intended countdown is the count
   * left right after the i-th claim, so no line is negative.
   */
  lemma IntendedCountdownMatchesHistory(passengers: seq<string>, total: int, i: nat)
    requires |passengers| <= total && i < |passengers|
    ensures IntendedCountdown(passengers, total - |passengers|)[i].seats == total - (i + 1)
    ensures IntendedCountdown(passengers, total - |passengers|)[i].seats >= 0
  {
  }
}
