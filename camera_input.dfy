/**
 * The camera side of the input callbacks: the per-frame movement dispatch
 * from the held-key vector, and the cursor callback that turns cursor
 * positions into yaw and pitch offsets. The camera controller itself is not
 * part of this model; the calls made on it are returned as values.
 */
module CameraInput {
  import opened Glfw
  import opened Keyboard

  /** The four movement calls of the camera controller. */
  datatype Move = MoveFront | MoveBack | MoveLeft | MoveRight

  /** The key whose held entry triggers each move. */
  function KeyOf(m: Move): (k: int)
    ensures InRange(k)
  {
    match m
    case MoveFront => KEY_W
    case MoveBack => KEY_S
    case MoveLeft => KEY_A
    case MoveRight => KEY_D
  }

  /** The position of each move's check in the pose update. */
  function Rank(m: Move): nat {
    match m
    case MoveFront => 0
    case MoveBack => 1
    case MoveLeft => 2
    case MoveRight => 3
  }

  /** Moves issued in check order, none twice. */
  predicate StrictlyOrdered(moves: seq<Move>) {
    forall i, j :: 0 <= i < j < |moves| ==> Rank(moves[i]) < Rank(moves[j])
  }

  /**
   * `moves` is a valid output of one pose update for the held-key vector
   * `held`: one move per held movement key, in the order front, back, left,
   * right.
   */
  predicate IssuedFor(held: seq<bool>, moves: seq<Move>)
    requires |held| == KEY_COUNT
  {
    StrictlyOrdered(moves) && forall m :: m in moves <==> held[KeyOf(m)]
  }

  /**
   * The per-frame pose update: one camera-controller move for each of W, S,
   * A and D that is held, checked in that order.
   */
  method UpdateCameraPose(input: KeyboardInput) returns (moves: seq<Move>)
    requires input.Valid()
    ensures IssuedFor(input.held[..], moves)
  {
    ghost var held := input.held[..];
    moves := [];
    if input.held[KEY_W] {
      moves := moves + [MoveFront];
    }
    assert moves == if held[KEY_W] then [MoveFront] else [];
    if input.held[KEY_S] {
      moves := moves + [MoveBack];
    }
    if input.held[KEY_A] {
      moves := moves + [MoveLeft];
    }
    if input.held[KEY_D] {
      moves := moves + [MoveRight];
    }
    assert moves == HeldMoves(held);
    HeldMovesIssued(held);
  }

  /** The rank tells moves apart. */
  lemma RankInjective(x: Move, y: Move)
    ensures Rank(x) == Rank(y) ==> x == y
  {
  }

  /** In an ordered sequence the tail holds every member except the head. */
  lemma TailMembers(a: seq<Move>, m: Move)
    requires StrictlyOrdered(a) && |a| > 0
    ensures m in a[1..] <==> m in a && m != a[0]
  {
    if m in a[1..] {
      var k :| 0 <= k < |a| - 1 && a[1..][k] == m;
      assert Rank(a[0]) < Rank(a[k + 1]);
    }
    if m in a && m != a[0] {
      var k :| 0 <= k < |a| && a[k] == m;
      assert a[1..][k - 1] == m;
    }
  }

  /** Two ordered move sequences with the same members are the same sequence. */
  lemma {:induction false} OrderedWithSameMembersEqual(a: seq<Move>, b: seq<Move>)
    requires StrictlyOrdered(a) && StrictlyOrdered(b)
    requires forall m :: m in a <==> m in b
    ensures a == b
    decreases |a| + |b|
  {
    assert |a| > 0 ==> a[0] in b;
    assert |b| > 0 ==> b[0] in a;
    if |a| > 0 && |b| > 0 {
      assert Rank(a[0]) <= Rank(b[0]) by {
        var k :| 0 <= k < |a| && a[k] == b[0];
      }
      assert Rank(b[0]) <= Rank(a[0]) by {
        var k :| 0 <= k < |b| && b[k] == a[0];
      }
      RankInjective(a[0], b[0]);
      forall m
        ensures m in a[1..] <==> m in b[1..]
      {
        TailMembers(a, m);
        TailMembers(b, m);
      }
      OrderedWithSameMembersEqual(a[1..], b[1..]);
      assert a == [a[0]] + a[1..] && b == [b[0]] + b[1..];
    }
  }

  /** The moves for `held`, listed out. */
  function HeldMoves(held: seq<bool>): seq<Move>
    requires |held| == KEY_COUNT
  {
    (if held[KEY_W] then [MoveFront] else []) +
    (if held[KEY_S] then [MoveBack] else []) +
    (if held[KEY_A] then [MoveLeft] else []) +
    (if held[KEY_D] then [MoveRight] else [])
  }

  /** Appending a move ranked above everything already issued keeps the order strict. */
  lemma AppendHigher(a: seq<Move>, m: Move, bound: nat)
    requires StrictlyOrdered(a) && forall i :: 0 <= i < |a| ==> Rank(a[i]) < bound
    requires bound <= Rank(m)
    ensures StrictlyOrdered(a + [m])
    ensures forall i :: 0 <= i < |a + [m]| ==> Rank((a + [m])[i]) <= Rank(m)
  {
  }

  /** Listing the held keys' moves is a valid pose update. */
  lemma HeldMovesIssued(held: seq<bool>)
    requires |held| == KEY_COUNT
    ensures IssuedFor(held, HeldMoves(held))
  {
    HeldMovesOrdered(held);
    forall m
      ensures m in HeldMoves(held) <==> held[KeyOf(m)]
    {
      HeldMovesMember(held, m);
    }
  }

  /** The listed moves come in check order. */
  lemma HeldMovesOrdered(held: seq<bool>)
    requires |held| == KEY_COUNT
    ensures StrictlyOrdered(HeldMoves(held))
  {
    var front := if held[KEY_W] then [MoveFront] else [];
    var back := front + if held[KEY_S] then [MoveBack] else [];
    if held[KEY_S] {
      AppendHigher(front, MoveBack, 1);
    }
    var left := back + if held[KEY_A] then [MoveLeft] else [];
    if held[KEY_A] {
      AppendHigher(back, MoveLeft, 2);
    }
    var right := left + if held[KEY_D] then [MoveRight] else [];
    if held[KEY_D] {
      AppendHigher(left, MoveRight, 3);
    }
    assert right == HeldMoves(held);
  }

  /** A move is listed exactly when its key is held. */
  lemma HeldMovesMember(held: seq<bool>, m: Move)
    requires |held| == KEY_COUNT
    ensures m in HeldMoves(held) <==> held[KeyOf(m)]
  {
    var w := if held[KEY_W] then [MoveFront] else [];
    var s := if held[KEY_S] then [MoveBack] else [];
    var a := if held[KEY_A] then [MoveLeft] else [];
    var d := if held[KEY_D] then [MoveRight] else [];
    assert HeldMoves(held) == w + s + a + d;
    assert m in w + s + a + d <==> m in w || m in s || m in a || m in d;
  }

  /**
   * A pose update's moves are determined by the held keys: exactly the held
   * movement keys' moves, front, back, left, right.
   */
  lemma IssuedIsHeldMoves(held: seq<bool>, moves: seq<Move>)
    requires |held| == KEY_COUNT && IssuedFor(held, moves)
    ensures moves == HeldMoves(held)
  {
    HeldMovesIssued(held);
    OrderedWithSameMembersEqual(moves, HeldMoves(held));
  }

  /** A held movement key yields its move exactly once, a released one never. */
  lemma IssuedOncePerHeldKey(held: seq<bool>, moves: seq<Move>, m: Move)
    requires |held| == KEY_COUNT && IssuedFor(held, moves)
    ensures multiset(moves)[m] == if held[KeyOf(m)] then 1 else 0
  {
    IssuedIsHeldMoves(held, moves);
  }

  /** W and A together give both MoveFront and MoveLeft: diagonal motion is not normalised. */
  lemma FrontAndLeftCompose(held: seq<bool>, moves: seq<Move>)
    requires |held| == KEY_COUNT && IssuedFor(held, moves)
    requires held[KEY_W] && held[KEY_A] && !held[KEY_S] && !held[KEY_D]
    ensures moves == [MoveFront, MoveLeft]
  {
    IssuedIsHeldMoves(held, moves);
  }

  /** W and S together give both MoveFront and MoveBack; they do not cancel. */
  lemma FrontAndBackBothIssued(held: seq<bool>, moves: seq<Move>)
    requires |held| == KEY_COUNT && IssuedFor(held, moves)
    requires held[KEY_W] && held[KEY_S] && !held[KEY_A] && !held[KEY_D]
    ensures moves == [MoveFront, MoveBack]
  {
    IssuedIsHeldMoves(held, moves);
  }

  /** The position the cursor callback subtracts from: the current one on the first call. */
  function Seed(firstCall: bool, last: int, current: int): int {
    if firstCall then current else last
  }

  /** The rotation offset the camera controller receives for a displacement `d`. */
  function RotationOffset(sensitivity: real, d: int): real {
    sensitivity * d as real
  }

  /** The static state of the cursor callback. */
  class CursorTracker {
    var firstCall: bool
    var lastX: int
    var lastY: int

    /** Static storage starts zeroed, with the first-call flag set. */
    constructor ()
      ensures firstCall && lastX == 0 && lastY == 0
    {
      firstCall := true;
      lastX := 0;
      lastY := 0;
    }

    /**
     * The cursor-position callback at (x, y): returns the offsets passed to
     * AddYawOffset and then AddPitchOffset, with y inverted for pitch.
     */
    method MouseCallback(x: int, y: int, sensitivity: real) returns (yawOffset: real, pitchOffset: real)
      modifies this
      ensures yawOffset == RotationOffset(sensitivity, x - Seed(old(firstCall), old(lastX), x))
      ensures pitchOffset == RotationOffset(sensitivity, Seed(old(firstCall), old(lastY), y) - y)
      ensures old(firstCall) ==> yawOffset == 0.0 && pitchOffset == 0.0
      ensures !old(firstCall) ==> yawOffset == RotationOffset(sensitivity, x - old(lastX))
      ensures !old(firstCall) ==> pitchOffset == RotationOffset(sensitivity, old(lastY) - y)
      ensures !firstCall && lastX == x && lastY == y
    {
      if firstCall {
        lastX := x;
        lastY := y;
        firstCall := false;
      }
      yawOffset := sensitivity * (x - lastX) as real;
      pitchOffset := sensitivity * (lastY - y) as real;
      lastX := x;
      lastY := y;
    }
  }

  /**
   * The raw displacements (current minus remembered position, one axis) that
   * successive cursor callbacks at positions `ps` compute, starting from the
   * state (`firstCall`, `last`); each call leaves (false, its position).
   */
  function Displacements(firstCall: bool, last: int, ps: seq<int>): (r: seq<int>)
    ensures |r| == |ps|
    ensures firstCall && |ps| > 0 ==> r[0] == 0
    decreases |ps|
  {
    if ps == [] then []
    else [ps[0] - Seed(firstCall, last, ps[0])] + Displacements(false, ps[0], ps[1..])
  }

  /** Entry i of the displacements: position i minus the seed on the first step, minus position i - 1 after. */
  lemma {:induction false} DisplacementAt(firstCall: bool, last: int, ps: seq<int>, i: nat)
    requires i < |ps|
    ensures Displacements(firstCall, last, ps)[i] == ps[i] - if i == 0 then Seed(firstCall, last, ps[0]) else ps[i - 1]
    decreases i
  {
    if i > 0 {
      DisplacementAt(false, ps[0], ps[1..], i - 1);
    }
  }

  /** Each displacement times the sensitivity: the offsets handed to the camera controller. */
  function Scaled(sensitivity: real, ds: seq<int>): (r: seq<real>)
    ensures |r| == |ds|
    ensures forall i :: 0 <= i < |ds| ==> r[i] == RotationOffset(sensitivity, ds[i])
  {
    seq(|ds|, i requires 0 <= i < |ds| => RotationOffset(sensitivity, ds[i]))
  }

  /** Scaling one more displacement appends its offset. */
  lemma ScaledSnoc(sensitivity: real, ds: seq<int>, d: int)
    ensures Scaled(sensitivity, ds + [d]) == Scaled(sensitivity, ds) + [RotationOffset(sensitivity, d)]
  {
    var r, q := Scaled(sensitivity, ds + [d]), Scaled(sensitivity, ds) + [RotationOffset(sensitivity, d)];
    forall i | 0 <= i < |r|
      ensures r[i] == q[i]
    {
      if i < |ds| {
        assert (ds + [d])[i] == ds[i];
      }
    }
  }

  /** The displacements of the inverted axis: the pitch subtracts the current position from the remembered one. */
  function Negated(ds: seq<int>): (r: seq<int>)
    ensures |r| == |ds|
    ensures forall i :: 0 <= i < |ds| ==> r[i] == -ds[i]
  {
    seq(|ds|, i requires 0 <= i < |ds| => -ds[i])
  }

  /**
   * A run of cursor events at positions (xs[i], ys[i]), delivered one after
   * another to the callback: the yaw offsets are the sensitivity times the
   * x displacements, the pitch offsets the sensitivity times the negated y
   * displacements, and the callback remembers the last position.
   */
  method TrackCursor(t: CursorTracker, xs: seq<int>, ys: seq<int>, sensitivity: real)
    returns (yaws: seq<real>, pitches: seq<real>)
    requires |xs| == |ys|
    modifies t
    ensures yaws == Scaled(sensitivity, Displacements(old(t.firstCall), old(t.lastX), xs))
    ensures pitches == Scaled(sensitivity, Negated(Displacements(old(t.firstCall), old(t.lastY), ys)))
    ensures |xs| > 0 ==> !t.firstCall && t.lastX == xs[|xs| - 1] && t.lastY == ys[|ys| - 1]
    ensures |xs| == 0 ==> t.firstCall == old(t.firstCall) && t.lastX == old(t.lastX) && t.lastY == old(t.lastY)
  {
    ghost var dx := Displacements(t.firstCall, t.lastX, xs);
    ghost var dy := Negated(Displacements(t.firstCall, t.lastY, ys));
    ghost var f0, x0, y0 := t.firstCall, t.lastX, t.lastY;
    yaws, pitches := [], [];
    for i := 0 to |xs|
      invariant yaws == Scaled(sensitivity, dx[..i])
      invariant pitches == Scaled(sensitivity, dy[..i])
      invariant t.firstCall == (f0 && i == 0)
      invariant t.lastX == if i == 0 then x0 else xs[i - 1]
      invariant t.lastY == if i == 0 then y0 else ys[i - 1]
    {
      StepDisplacement(f0, x0, xs, i, Seed(t.firstCall, t.lastX, xs[i]));
      StepDisplacement(f0, y0, ys, i, Seed(t.firstCall, t.lastY, ys[i]));
      var yaw, pitch := t.MouseCallback(xs[i], ys[i], sensitivity);
      assert dx[..i + 1] == dx[..i] + [dx[i]];
      assert dy[..i + 1] == dy[..i] + [dy[i]];
      ScaledSnoc(sensitivity, dx[..i], dx[i]);
      ScaledSnoc(sensitivity, dy[..i], dy[i]);
      yaws, pitches := yaws + [yaw], pitches + [pitch];
    }
    assert dx[..|xs|] == dx;
    assert dy[..|ys|] == dy;
  }

  /** The displacement of step i is the position minus the seed the tracker holds before that step. */
  lemma StepDisplacement(firstCall: bool, last: int, ps: seq<int>, i: nat, seed: int)
    requires i < |ps|
    requires seed == if i == 0 then Seed(firstCall, last, ps[0]) else ps[i - 1]
    ensures Displacements(firstCall, last, ps)[i] == ps[i] - seed
  {
    DisplacementAt(firstCall, last, ps, i);
  }

  /** The total of a sequence of displacements. */
  function Sum(s: seq<int>): int {
    if s == [] then 0 else s[0] + Sum(s[1..])
  }

  /**
   * The displacements telescope: over any run of calls they add up to the
   * final position minus the position remembered before the first call.
   */
  lemma {:induction false} DisplacementsTelescope(firstCall: bool, last: int, ps: seq<int>)
    requires |ps| > 0
    ensures Sum(Displacements(firstCall, last, ps)) == ps[|ps| - 1] - Seed(firstCall, last, ps[0])
    decreases |ps|
  {
    if |ps| > 1 {
      DisplacementsTelescope(false, ps[0], ps[1..]);
    }
  }

  /**
   * From a fresh tracker, the seeding means no spurious jump: the yaw
   * displacements add up to the last minus the first x position, whatever
   * was stored before.
   */
  lemma FreshTrackerTotal(last: int, ps: seq<int>)
    requires |ps| > 0
    ensures Sum(Displacements(true, last, ps)) == ps[|ps| - 1] - ps[0]
  {
    DisplacementsTelescope(true, last, ps);
  }
}
