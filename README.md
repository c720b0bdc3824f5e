# Rocket ground station: connection state and altitude history

This project models the state that the ground-station dashboard
(`RocketGroundStation` in `dashboard.py`) keeps between its widgets:

- the connection state machine behind the Connect/Disconnect button: the
  flags `connected` and `running` and the session start `start_time`;
- the altitude history behind the live plot: two parallel lists,
  `time_data` (seconds since the session started) and `altitude_data`, to
  which every iteration of the telemetry loop appends one pair, dropping the
  oldest pair once there are more than 100.

Everything lives in module `GroundStation` (`ground_station.dfy`). The class
`RocketGroundStation` has the source's fields (`connected`, `running`,
`startTime`, `timeData`, `altitudeData`) and a ghost log `samples` of every
tick ever produced, across sessions. Its invariant `Valid()` says that the
two flags agree, that a running loop has a session start, and that each
history list is the last 100 entries of the matching projection of the log,
so index `i` of both lists comes from the same tick.

The clock (`time.time()`) and the random altitude (`random.uniform`) are
parameters: `Toggle(now)`, `Tick(now, altitude)`, and
`RunTelemetryLoop(readings)` with one `(clock, altitude)` reading per loop
iteration. Nothing is assumed about the order of clock readings.

`Recent(s, n)` is the reference definition of "the most recent `n`
elements"; the methods are proved against it, and lemmas give its
properties. `Push` is one iteration's append and trim on one list. It tests
that list's own length, while the code tests only the length of `time_data`
for both lists; the two agree because `Valid()` keeps the lengths equal, and
`Tick` itself tests `timeData` as the code does. `PushAll` is a run of iterations; `PushCases` and
`PushAllIsRecent` prove that they keep exactly the most recent 100 values.
`RecentOfRecent` and `WindowAfterRun` show that windows compose, and
`WindowsPaired` that the two lists stay paired.

The worker thread appends to the lists and redraws the plot
itself, once a second. Time values in the history are not monotone:
reconnecting restamps the session start and keeps the old samples.
`ReconnectRestartsClock` exhibits this with concrete readings.

## Model

| member | source | states |
|---|---|---|
| GroundStation.RocketGroundStation.constructor | dashboard.py:16-20 | a new station is disconnected, not running, has no session start and empty time and altitude lists |
| GroundStation.RocketGroundStation.Toggle | dashboard.py:81-93 | toggling from disconnected sets both flags and stamps the session start with the clock reading; toggling from connected clears both flags and keeps the old start; neither touches the history; `running == connected` afterwards |
| GroundStation.RocketGroundStation.Tick | dashboard.py:110-117 | with the loop running, appends the pair (clock minus session start, altitude): each list becomes the last 100 of its old contents plus the new value, the tick log grows by exactly that pair, flags and start are unchanged, and both lists stay the last 100 of the log |
| GroundStation.RocketGroundStation.RunTelemetryLoop | dashboard.py:95-117 | a run of loop iterations over given readings leaves each list equal to one `Push` per reading and to the last 100 of (old list followed by the new values, in order), and extends the tick log by one sample per reading, elapsed time measured from the unchanged session start |
| GroundStation.Recent | dashboard.py:114-117 | the window of the most recent `n` values has length min(length, `n`) |
| GroundStation.Push | dashboard.py:111-117 | one iteration's update of one list always ends with the new value and never takes a list within the 100-entry bound past it |
| GroundStation.PushCases | dashboard.py:111-117 | for a list within its bound, one append and trim keeps exactly the most recent 100 values; below the bound nothing is dropped and the old contents are a prefix; at the bound only the oldest value is dropped and the other 99 keep their order, followed by the new one |
| GroundStation.PushAll | dashboard.py:95-117 | after a run of iterations a list within the bound stays within it, ends with the last value pushed, and is unchanged by an empty run |
| GroundStation.PushAllIsRecent | dashboard.py:95-117 | pushing values one at a time leaves exactly the most recent 100 of (old list followed by the new values) in their original order |
| GroundStation.RecentOfRecent | dashboard.py:111-117 | trimming early loses nothing: the last `n` of (last `n` of `a`, then `b`) equals the last `n` of (`a` then `b`) |
| GroundStation.WindowAfterRun | dashboard.py:111-117 | after more ticks, the time window and the altitude window are the last `n` of the old window followed by the new values, both lists at once |
| GroundStation.WindowsPaired | dashboard.py:111-117 | the time window and the altitude window of one log have equal length and index `i` of each is the same tick of the log |
| GroundStation.ToggleTwice | dashboard.py:81-93 | two toggles restore both flags, the history and the tick log; from disconnected the start keeps the first toggle's stamp, from connected it takes the second's |
| GroundStation.ReconnectRestartsClock | dashboard.py:81-117 | connect at 0, tick at 10, disconnect, reconnect at 20, tick at 21: the history holds times [10, 1] and altitudes [500, 250], so earlier samples survive a reconnect and times go down |

## Left out

- Widget construction (`create_header`, `create_telemetry_panel`, `create_plot_panel`, `create_console`): Tkinter layout only.
- Plot redraw (`ax.clear`, `ax.plot`, `canvas.draw`): a matplotlib call the model cannot see.
- The five `random.uniform` draws: the altitude is a parameter; velocity, temperature, pressure and acceleration only feed display strings.
- The `.2f` and `.1f` formatting into `StringVar`s and log lines, and `log` with its `strftime` timestamp: display and console I/O.
- `threading.Thread(...).start()` and `time.sleep(1)`: threading and timing. `Tick` is a sequential step that requires `running`.
- The race between a UI-thread toggle and the worker's `while self.running` check, which lets a quick disconnect and reconnect leave two loops appending to the same lists: concurrency.
- RunTelemetryLoop: the source loop runs until another thread clears `running`. The model runs it over a finite sequence of readings given up front.
- Clock readings, elapsed times and altitudes are `real`: Python float rounding in `time.time() - start_time` is not modelled.
- Button label changes (`connect_btn.config`): presentation.
