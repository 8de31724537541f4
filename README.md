# Figure-8 position broadcaster: trajectory and broadcast cursor

This project models the two pieces of logic in the broadcaster (`main.py`)
that are not network plumbing:

- **The trajectory builder** (`build_figure8_points`). It works from the grid
  bounds `MAX_X`, `MAX_Y`. It derives a centre line, a left and a right circle
  centre, and two radii. Then it appends four segments to a list: 72 points on
  the left circle, 12 points on a straight run to the right, 72 points on the
  right circle and 12 points on a run back. Circle coordinates are clamped to
  the grid. On the runs only `x` is clamped, and `y` is the centre line.
  Module `Trajectory` (`trajectory.dfy`) holds the builder as a method with
  four loops, `BuildFigure8`. It also holds the function the method is proved
  against, `Figure8`, and the lemmas about that function. The grid bounds are
  parameters, and the broadcaster's own grid (102 by 65) is the constants
  `MaxX`, `MaxY`.
- **The broadcast cursor** of the connection handler. `idx` starts at 0. Each
  tick sends `FIG8_POINTS[idx % total]` and advances `idx` by one, until a
  send raises `ConnectionClosed`. Module `Broadcast` (`broadcast.dfy`) holds
  this loop as `Stream`. It also holds the specification of the sent stream,
  `Emitted`: message k is trajectory point k mod total. Lemmas give its
  prefix, periodicity and no-gap properties. `Serve` puts the two together:
  the trajectory is built at module load on the 102 by 65 grid, then one
  connection is streamed.

Modelling decisions:

- The floating-point trig and Python's `round` are the three arrows of a
  `Rounding` value, passed in as a parameter. `circleX`, `circleY` and `lerp`
  each return some integer; nothing is assumed about which one. Every fact
  about the trajectory holds for every `Rounding`. The one exception is where
  a run ends (`RunEndpoints`). There the float interpolation at t = 1.0 is
  `0.0 * from + 1.0 * to`, which rounds back to the destination whenever it
  converts to a float exactly. So the lemma requires `lerp` to return the
  destination at step 12 for this grid's two centres only.
- Python's `//` by a positive constant rounds down (floor). So does Dafny's
  `/`, so `Derive` matches the source for negative bounds too.
- The builder has no precondition. The source runs for any integer bounds
  whose derived values fit in a float; for larger ones it raises
  `OverflowError` (see "## Left out"). The grid bounds need `0 <= MAX_X` and
  `0 <= MAX_Y`, and are stated under that condition.
- The peer is a `Link` that accepts `closesAfter` messages. The next send
  raises `ConnectionClosed`, which ends the loop. A position message is
  `Frame(x, y)`: the `"t"` timestamp is dropped.
- The message this code sends is `{"x", "y", "t"}`. There is no `type` field
  and no greeting message before it, so no hello/`pos` protocol is modelled.

## Model

| member | source | states |
|---|---|---|
| `Trajectory.Clamp` | main.py:14 | for lo <= hi the result is in [lo, hi]; it equals v exactly when v is already in range; below the range it is lo and above it hi; it is never below lo |
| `Trajectory.Derive` | main.py:8-12 | centre line, left and right centres are the floors of MAX_Y/2, MAX_X/3, 2*MAX_X/3 (stated as 2c <= MAX_Y < 2c+2 and so on); radius_x lies in [6, 24] and radius_y in [6, 20], equal to MAX_X/5 and MAX_Y/3 when those are already in range, and to the bound they cross otherwise (6 below; 24 and 20 above); for a non-negative grid 0 <= left <= right <= MAX_X and 0 <= centre_y <= MAX_Y |
| `Trajectory.Figure8` | main.py:13-38 | the trajectory has 72 + 12 + 72 + 12 = 168 points for every grid and every rounding |
| `Trajectory.BuildFigure8` | main.py:7-38 | the four appending loops produce exactly `Figure8` (168 points); on a non-negative grid every point lies in [0, MAX_X] x [0, MAX_Y] |
| `Trajectory.Figure8Layout` | main.py:16-36 | segment order: indices 0..71 are the left-circle points 0..71, 72..83 the left-to-right run points 1..12, 84..155 the right-circle points, 156..167 the run back |
| `Trajectory.Figure8InGrid` | main.py:16-36 | on a non-negative grid every point satisfies 0 <= x <= MAX_X and 0 <= y <= MAX_Y, the runs' unclamped y included |
| `Trajectory.RunsOnCenterLine` | main.py:22-36 | indices 72..83 and 156..167 have y == MAX_Y/2 |
| `Trajectory.RunEndpoints` | main.py:22-36 | when `lerp` at t = 1 returns this grid's destination centre, index 83 is (right centre, centre line) and index 167 is (left centre, centre line) |
| `Trajectory.DefaultGrid` | main.py:5-12 | on the 102 x 65 grid the derived values are 32, 34, 68, 20, 20 and the trajectory has 168 points |
| `Broadcast.Stream` | main.py:56-64 | the loop sends exactly the messages `Emitted(pts, n)`, where n is the number of sends the peer accepted, and stops with idx == n |
| `Broadcast.FirstCycle` | main.py:56-61 | the first `total` messages are the trajectory points in order |
| `Broadcast.EmittedPrefix` | main.py:57-61 | sending more only appends: the first m messages of n are those of a session that stopped after m |
| `Broadcast.EmittedPeriodic` | main.py:56-61 | message k + total equals message k, so the stream has period `total` |
| `Broadcast.EmittedAdvances` | main.py:58-61 | message k comes from the trajectory index that follows the one of message k - 1, wrapping from the last point to the first |
| `Broadcast.Serve` | main.py:40-61 | with `FIG8_POINTS` built on 102 x 65, `total` is positive, message k is point k mod 168, and every message lies in [0, 102] x [0, 65] |

## Left out

- The values of `math.cos`, `math.sin` and Python's half-to-even `round` on floats: they are the uninterpreted `Rounding` arrows, so no specific circle coordinate is claimed.
- `Trajectory.RunEndpoints`: it requires `lerp(left, right, 12) == right` and `lerp(right, left, 12) == left` for this grid's centres. Python's float arithmetic gives that while the centres convert to floats exactly (|centre| <= 2^53, which includes 102 x 65); for larger centres `float(to)` rounds and the lemma does not apply.
- `OverflowError` for huge bounds: once a circle centre or the centre line `MAX_Y // 2` is beyond float range (about 2^1024), adding it to a float raises `OverflowError` in the source. The `Rounding` arrows are total and always return an integer, so this error path is not modelled.
- WebSocket send and receive, `websocket.open` and the `ConnectionClosed` exception: network I/O. The point at which the peer goes away is the `Link` parameter.
- The `ping_client` keepalive task, `asyncio.create_task`, `ping_task.cancel()` and `asyncio.sleep(0.2)`: concurrency and timing. So nothing is said about the 5 Hz rate or about cancelling the keepalive.
- `time.time()` and `json.dumps`: a clock and a foreign library. A message is modelled as its `x`, `y` pair.
- The `print` lines, on connect, on each send (with its timestamp) and on disconnect: console output.
- A peer that never closes: `Link` always closes after some finite `closesAfter`, so the source's endless `while True` is covered only through its finite prefixes, which `Broadcast.EmittedPrefix` relates to each other.
- `http_index` and the `main` server bootstrap (websockets and aiohttp listeners, `asyncio.Future()`): I/O wrappers.
- A stream-directory endpoint, a hello message and a `"type": "pos"` field: `main.py` has none of them.
