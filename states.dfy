/** The conversation states, `START, ADD_DRIVER, SELECT_DRIVER = range(3)` (driver_bot.py:45). */
module States {
  const START: int := 0
  const ADD_DRIVER: int := 1
  const SELECT_DRIVER: int := 2
}
