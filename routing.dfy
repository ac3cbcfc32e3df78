/**
 * The conversation's handler table in `main` (driver_bot.py:241-254) as data:
 * the entry point, the handlers listed for each state, and the fallback.
 * Which handler receives an update is decided by the conversation framework,
 * whose code is not part of this model; `Dispatch` states the rule assumed
 * here: the handlers of the current state are tried in the order listed, then
 * the fallbacks, and the first whose filter accepts the update is chosen.
 */
module Routing {
  import opened Wrappers
  import opened States

  datatype Handler =
    | StartHandler
    | AddDriverHandler
    | SelectDriverHandler
    | AddDriverCallbackHandler
    | SelectDriverCallbackHandler
    | CancelHandler
    | ResetHandler

  /**
   * An incoming update: a command ("/start"), a button press carrying its
   * callback data, or a text message that is not a command.
   */
  datatype Update = CommandUpdate(command: string) | CallbackUpdate(data: string) | TextUpdate(text: string)

  datatype Filter =
    | CommandFilter(command: string)            // CommandHandler('start', ...)
    | CallbackFilter(pattern: Option<string>)   // CallbackQueryHandler(..., pattern='^p$'), or no pattern
    | TextFilter                                // MessageHandler(filters.TEXT & ~filters.COMMAND, ...)

  datatype Route = Route(filter: Filter, handler: Handler)

  /** Python's re.match('^p$', data): `$` also matches before one final newline. */
  predicate MatchesPattern(p: string, data: string): (matched: bool)
    ensures matched ==> p <= data && |data| <= |p| + 1
    ensures data == p ==> matched
    ensures matched && data != p ==> data == p + "\n"
  {
    data == p || data == p + "\n"
  }

  /**
   * Whether a handler's filter accepts an update: each filter accepts only its
   * own kind of update, and a callback handler without a pattern accepts every
   * button press.
   */
  predicate Matches(f: Filter, u: Update): (m: bool)
    ensures m && f.CommandFilter? ==> u == CommandUpdate(f.command)
    ensures m && f.CallbackFilter? ==> u.CallbackUpdate?
    ensures m && f.TextFilter? ==> u.TextUpdate?
    ensures f == CallbackFilter(None) && u.CallbackUpdate? ==> m
  {
    match f
    case CommandFilter(c) => u.CommandUpdate? && u.command == c
    case CallbackFilter(p) => u.CallbackUpdate? && (p.None? || MatchesPattern(p.value, u.data))
    case TextFilter => u.TextUpdate?
  }

  const EntryPoints: seq<Route> := [Route(CommandFilter("start"), StartHandler)]

  /** The `states` dictionary of the ConversationHandler. */
  function StateRoutes(state: int): (routes: seq<Route>)
    ensures routes != [] <==> 0 <= state < 3
    ensures (exists i :: 0 <= i < |routes| && routes[i].filter == TextFilter) <==> state == ADD_DRIVER
    ensures forall i :: 0 <= i < |routes| ==> routes[i].handler != StartHandler && routes[i].handler != ResetHandler
  {
    if state == START then
      [ Route(CallbackFilter(Some("add_driver")), AddDriverHandler),
        Route(CallbackFilter(Some("select_driver")), SelectDriverHandler) ]
    else if state == ADD_DRIVER then
      var routes := [ Route(TextFilter, AddDriverCallbackHandler) ];
      assert routes[0].filter == TextFilter;
      routes
    else if state == SELECT_DRIVER then
      [ Route(CallbackFilter(None), SelectDriverCallbackHandler),
        Route(CallbackFilter(Some("cancel")), CancelHandler) ]
    else []
  }

  const Fallbacks: seq<Route> := [Route(CallbackFilter(Some("reset")), ResetHandler)]

  /** The callback data of the main menu buttons (driver_bot.py:48-53). */
  const MenuData: seq<string> := ["add_driver", "select_driver", "reset"]

  /** Route `i` accepts the update and no route before it does. */
  predicate IsFirstMatch(routes: seq<Route>, u: Update, i: int) {
    && 0 <= i < |routes|
    && Matches(routes[i].filter, u)
    && forall j :: 0 <= j < i ==> !Matches(routes[j].filter, u)
  }

  /** The handler of the first route whose filter accepts the update. */
  function FirstMatch(routes: seq<Route>, u: Update): (r: Option<Handler>)
    ensures r.None? <==> forall i :: 0 <= i < |routes| ==> !Matches(routes[i].filter, u)
    ensures r.Some? ==> exists i :: IsFirstMatch(routes, u, i) && routes[i].handler == r.value
  {
    if routes == [] then None
    else if Matches(routes[0].filter, u) then
      assert IsFirstMatch(routes, u, 0);
      Some(routes[0].handler)
    else
      var r := FirstMatch(routes[1..], u);
      if r.Some? then
        var i :| IsFirstMatch(routes[1..], u, i) && routes[1..][i].handler == r.value;
        assert IsFirstMatch(routes, u, i + 1);
        r
      else r
  }

  /**
   * The handler chosen for an update, given the conversation's current state
   * (None before /start): the entry points when inactive, otherwise the
   * state's handlers and then the fallbacks.
   */
  function Dispatch(state: Option<int>, u: Update): (h: Option<Handler>)
    ensures state.None? ==> (h.Some? <==> u == CommandUpdate("start")) && (h.Some? ==> h.value == StartHandler)
    ensures h == Some(StartHandler) ==> state.None?
    ensures state.Some? && h == Some(ResetHandler) ==> u.CallbackUpdate? && MatchesPattern("reset", u.data)
  {
    if state.None? then FirstMatch(EntryPoints, u)
    else FirstMatch(StateRoutes(state.value) + Fallbacks, u)
  }

  /** From START each main menu button reaches the handler it is named after. */
  lemma MenuButtonsRouted()
    ensures Dispatch(Some(START), CallbackUpdate(MenuData[0])) == Some(AddDriverHandler)
    ensures Dispatch(Some(START), CallbackUpdate(MenuData[1])) == Some(SelectDriverHandler)
    ensures Dispatch(Some(START), CallbackUpdate(MenuData[2])) == Some(ResetHandler)
  {
    var routes := StateRoutes(START) + Fallbacks;
    assert routes[1..] == [routes[1], routes[2]] && routes[2..] == Fallbacks;
    assert !MatchesPattern("add_driver", "select_driver");
    assert !MatchesPattern("add_driver", "reset") && !MatchesPattern("select_driver", "reset");
  }

  /**
   * While selecting a driver, the unfiltered selection handler is listed
   * first, so under first-match dispatch the Cancel handler is never chosen,
   * and the Cancel and reset buttons are taken for driver names.
   */
  lemma CancelNeverDispatched(u: Update)
    ensures Dispatch(Some(SELECT_DRIVER), u) != Some(CancelHandler)
    ensures u.CallbackUpdate? ==> Dispatch(Some(SELECT_DRIVER), u) == Some(SelectDriverCallbackHandler)
  {
  }

  /** The selection handlers with Cancel listed before the catch-all, and reset ahead of it too. */
  function CorrectedSelectRoutes(): seq<Route> {
    [ Route(CallbackFilter(Some("cancel")), CancelHandler),
      Route(CallbackFilter(Some("reset")), ResetHandler),
      Route(CallbackFilter(None), SelectDriverCallbackHandler) ]
  }

  /**
   * With the corrected order, the Cancel button cancels, the reset button
   * resets, and every other button press is a driver selection.
   */
  lemma CorrectedSelectRouting(data: string)
    ensures data == "cancel" ==> FirstMatch(CorrectedSelectRoutes() + Fallbacks, CallbackUpdate(data)) == Some(CancelHandler)
    ensures data == "reset" ==> FirstMatch(CorrectedSelectRoutes() + Fallbacks, CallbackUpdate(data)) == Some(ResetHandler)
    ensures !MatchesPattern("cancel", data) && !MatchesPattern("reset", data) ==>
      FirstMatch(CorrectedSelectRoutes() + Fallbacks, CallbackUpdate(data)) == Some(SelectDriverCallbackHandler)
  {
    var routes := CorrectedSelectRoutes() + Fallbacks;
    assert routes[1..][1..] == routes[2..];
    assert routes[2].filter == CallbackFilter(None);
  }

  /** A text message finds a handler only while the conversation waits for driver info. */
  lemma TextOnlyWhileAddingDriver(state: int, text: string)
    ensures Dispatch(Some(state), TextUpdate(text)).Some? <==> state == ADD_DRIVER
  {
  }
}
