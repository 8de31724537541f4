/**
 The broadcast cursor of a streaming session: the handler reads the point at
 `idx % total`, sends it as a position message, and advances `idx` by one,
 until a send raises ConnectionClosed.
 */
module Broadcast {
  import opened Trajectory

  /** A position message `{"x", "y", "t"}`; the timestamp `t` is not modelled. */
  datatype Frame = Frame(x: int, y: int)

  /** The peer on the other end: it accepts `closesAfter` messages, then the next send raises ConnectionClosed. */
  datatype Link = Link(closesAfter: nat)

  function FrameOf(p: Point): Frame { Frame(p.x, p.y) }

  /** The messages a session has sent after n sends: message k is point k mod total. */
  function Emitted(pts: seq<Point>, n: nat): seq<Frame>
    requires |pts| > 0
  {
    seq(n, k requires 0 <= k < n => FrameOf(pts[k % |pts|]))
  }

  /**
   The handler's send loop over the trajectory `pts`, without the sleep, the
   timestamp and the keepalive task. Returns the messages delivered and the
   cursor when the connection closed.
   */
  method Stream(pts: seq<Point>, link: Link) returns (sent: seq<Frame>, idx: nat)
    requires |pts| > 0
    ensures idx == link.closesAfter
    ensures sent == Emitted(pts, idx)
  {
    var total := |pts|;
    idx, sent := 0, [];
    while true
      invariant idx <= link.closesAfter
      invariant sent == Emitted(pts, idx)
      decreases link.closesAfter - idx
    {
      var p := pts[idx % total];
      if idx == link.closesAfter {
        // websocket.send raises ConnectionClosed: the loop ends, nothing is sent
        break;
      }
      sent := sent + [FrameOf(p)];
      idx := idx + 1;
    }
  }

  /** (k + m) mod m == k mod m, from the uniqueness of Euclidean division. */
  lemma {:induction false} ModShift(k: nat, m: nat)
    requires m > 0
    ensures (k + m) % m == k % m
  {
    var q, r := k / m, k % m;
    assert k + m == (q + 1) * m + r;
    DivModUnique(k + m, m, q + 1, r);
  }

  /** Successor on the cycle: ((k + 1) mod m) == ((k mod m) + 1) mod m. */
  lemma {:induction false} ModSucc(k: nat, m: nat)
    requires m > 0
    ensures (k + 1) % m == (k % m + 1) % m
  {
    var q, r := k / m, k % m;
    if r + 1 < m {
      assert k + 1 == q * m + (r + 1);
      DivModUnique(k + 1, m, q, r + 1);
    } else {
      assert k + 1 == (q + 1) * m + 0;
      DivModUnique(k + 1, m, q + 1, 0);
    }
  }

  /** Quotient and remainder are unique: any q, r with a == q * m + r and 0 <= r < m are a / m and a % m. */
  lemma DivModUnique(a: nat, m: nat, q: int, r: int)
    requires m > 0 && 0 <= r < m && a == q * m + r
    ensures a / m == q && a % m == r
  {
    var q', r' := a / m, a % m;
    assert (q - q') * m == r' - r by {
      assert q * m - q' * m == (q - q') * m;
    }
    if q' < q {
      MulAtLeast(q - q', m);
    } else if q < q' {
      MulAtLeast(q' - q, m);
    }
  }

  lemma MulAtLeast(d: int, m: nat)
    requires d >= 1
    ensures d * m >= m
  {
  }

  /** The first `total` messages replay the trajectory exactly, in order. */
  lemma FirstCycle(pts: seq<Point>, n: nat)
    requires |pts| > 0 && |pts| <= n
    ensures forall k :: 0 <= k < |pts| ==> Emitted(pts, n)[k] == FrameOf(pts[k])
  {
    forall k | 0 <= k < |pts|
      ensures Emitted(pts, n)[k] == FrameOf(pts[k])
    {
      DivModUnique(k, |pts|, 0, k);
    }
  }

  /** Sending more only appends: earlier messages are never changed or reordered. */
  lemma EmittedPrefix(pts: seq<Point>, m: nat, n: nat)
    requires |pts| > 0 && m <= n
    ensures Emitted(pts, m) == Emitted(pts, n)[..m]
  {
  }

  /** The message stream is periodic with period `total`. */
  lemma EmittedPeriodic(pts: seq<Point>, n: nat)
    requires |pts| > 0
    ensures var s := Emitted(pts, n);
      forall k :: 0 <= k && k + |pts| < n ==> s[k + |pts|] == s[k]
  {
    forall k | 0 <= k && k + |pts| < n
      ensures Emitted(pts, n)[k + |pts|] == Emitted(pts, n)[k]
    {
      ModShift(k, |pts|);
    }
  }

  /**
   No gaps: message k comes from the trajectory index right after that of
   message k - 1 (which is (k - 1) mod total), wrapping at the end.
   */
  lemma EmittedAdvances(pts: seq<Point>, n: nat)
    requires |pts| > 0
    ensures var s := Emitted(pts, n);
      forall k :: 0 < k < n ==> s[k] == FrameOf(pts[((k - 1) % |pts| + 1) % |pts|])
  {
    forall k | 0 < k < n
      ensures Emitted(pts, n)[k] == FrameOf(pts[((k - 1) % |pts| + 1) % |pts|])
    {
      ModSucc(k - 1, |pts|);
    }
  }

  /**
   Module load followed by one connection: FIG8_POINTS is built on the
   broadcaster's grid, then the handler streams it until the peer closes.
   */
  method Serve(o: Rounding, link: Link) returns (sent: seq<Frame>)
    ensures |sent| == link.closesAfter
    ensures forall k :: 0 <= k < |sent| ==> sent[k] == FrameOf(Figure8(MaxX, MaxY, o)[k % Total])
    ensures forall k :: 0 <= k < |sent| ==> 0 <= sent[k].x <= MaxX && 0 <= sent[k].y <= MaxY
  {
    var fig8 := BuildFigure8(MaxX, MaxY, o);
    var cursor: nat;
    sent, cursor := Stream(fig8, link);
  }
}
