/** The ChaosGame class of ChaosGame.py: its checked construction, the board,
    the shuffled corner-index stream and the chaos-game recurrence. */
module Game {
  import opened Errors
  import opened Geometry
  import opened Sampling

  /** The Python value passed as num_corners: an int, or a number of another type. */
  datatype CornerCount = IntCount(n: int) | FloatCount(f: real)

  /** What GenerateFractal returns: the positions and the board. */
  datatype Fractal = Fractal(pos: seq<Point>, corners: seq<Point>)

  class ChaosGame {
    const numCorners: int
    const scale: real

    /** Lines 12-13: store the two settings once they have been checked. */
    constructor (numCorners: int, scale: real)
      requires scale <= 1.0
      ensures this.numCorners == numCorners && this.scale == scale
    {
      this.numCorners := numCorners;
      this.scale := scale;
    }

    /** __init__: a non-int corner count and a scale above 1 are rejected, in that
        order; otherwise both settings are stored unchanged. */
    static method New(numCorners: CornerCount, scale: real) returns (r: Result<ChaosGame>)
      ensures numCorners.FloatCount? ==> r == Failure(NotAnInteger)
      ensures numCorners.IntCount? && scale > 1.0 ==> r == Failure(ScaleTooLarge)
      ensures numCorners.IntCount? && scale <= 1.0 ==>
        r.Success? && fresh(r.value) && r.value.numCorners == numCorners.n && r.value.scale == scale
    {
      if numCorners.FloatCount? {
        return Failure(NotAnInteger);
      }
      if scale > 1.0 {
        return Failure(ScaleTooLarge);
      }
      var game := new ChaosGame(numCorners.n, scale);
      r := Success(game);
    }

    /** GenerateBoard: numCorners + 1 zeroed slots, of which the first ones are
        overwritten with the points (cos a, sin a) of np.linspace(0, 2*pi, m)[:-1],
        m being numCorners when a corner sits at the centre (ans) and numCorners + 1
        otherwise. With ans the corner numCorners (slot numCorners - 1) is the origin;
        without it the first numCorners slots are a regular numCorners-gon. */
    method GenerateBoard(ans: bool, cos: real -> real, sin: real -> real) returns (corners: seq<Point>)
      requires numCorners >= 0
      ensures IsBoard(corners, numCorners, ans, cos, sin)
      ensures |corners| == numCorners + 1 && corners[numCorners] == Origin
      ensures ans && numCorners >= 1 ==> corners[numCorners - 1] == Origin
      ensures ans ==> forall j :: 0 <= j < numCorners - 1 ==>
        corners[j] == Point(cos(2.0 * Pi * j as real / (numCorners - 1) as real),
                            sin(2.0 * Pi * j as real / (numCorners - 1) as real))
      ensures !ans ==> forall j :: 0 <= j < numCorners ==>
        corners[j] == Point(cos(2.0 * Pi * j as real / numCorners as real),
                            sin(2.0 * Pi * j as real / numCorners as real))
    {
      var angles := if ans then PolygonAngles(numCorners) else PolygonAngles(numCorners + 1);
      var x := new real[numCorners + 1](_ => 0.0);
      var y := new real[numCorners + 1](_ => 0.0);
      forall j | 0 <= j < |angles| {
        x[j] := cos(angles[j]);
      }
      forall j | 0 <= j < |angles| {
        y[j] := sin(angles[j]);
      }
      corners := seq(numCorners + 1, j requires 0 <= j < x.Length && j < y.Length reads x, y => Point(x[j], y[j]));
    }

    /** GenerateIFS: the corner-index stream for the given probabilities. It fails
        exactly when FrequencyPlan does, with the same error; otherwise it is a
        permutation of the in-order layout, so corner k occurs exactly as often as
        its count int(num_points * p[k-1]) says, every index is a corner number
        1..numCorners, and its length is the total of the counts. */
    method GenerateIFS(probs: seq<real>, numPoints: int, rng: nat -> nat) returns (r: Result<seq<int>>)
      ensures r.Failure? <==> FrequencyPlan(probs, numCorners, numPoints).Failure?
      ensures r.Failure? ==> r.error == FrequencyPlan(probs, numCorners, numPoints).error
      ensures r.Success? ==> numCorners >= 1
      ensures r.Success? ==>
        multiset(r.value) == multiset(Layout(FrequencyPlan(probs, numCorners, numPoints).value))
      ensures r.Success? ==> forall k :: 1 <= k <= numCorners ==>
        multiset(r.value)[k] == FrequencyPlan(probs, numCorners, numPoints).value[k - 1]
      ensures r.Success? ==> forall x :: x in r.value ==> 1 <= x <= numCorners
      ensures r.Success? ==> |r.value| == Total(FrequencyPlan(probs, numCorners, numPoints).value)
    {
      var p :- Normalise(probs, numCorners);
      assert FrequencyPlan(probs, numCorners, numPoints) == Counts(p, numPoints);
      var freq := Frequencies(p, numPoints);
      var ifs: seq<int> := [];
      for i := 0 to |freq|
        invariant forall k :: 0 <= k < i ==> freq[k] >= 0
        invariant ifs == Layout(freq[..i])
      {
        if freq[i] < 0 {
          NegativeCountFails(p, numPoints, i);
          return Failure(NegativeSize);
        }
        assert freq[..i + 1][..i] == freq[..i];
        ifs := ifs + Repeat(i + 1, freq[i]);
      }
      assert freq[..|freq|] == freq;
      ghost var counts: seq<nat> := freq;
      assert Counts(p, numPoints) == Success(counts);
      var a := new int[|ifs|](k requires 0 <= k < |ifs| => ifs[k]);
      assert a[..] == ifs;
      Shuffle(a, rng);
      r := Success(a[..]);
      PermutedLayout(r.value, counts);
    }

    /** Lines 86-94: pos[0] is the start and every later pos[i] is one move from
        pos[i-1] toward the corner ifs[i]; ifs[0] is never used. */
    method Iterate(ifs: seq<int>, corners: seq<Point>, start: Point) returns (pos: seq<Point>)
      requires |ifs| >= 1
      requires forall i :: 1 <= i < |ifs| ==> 1 <= ifs[i] <= |corners|
      ensures FollowsStream(pos, ifs, corners, start, scale)
    {
      var a := new Point[|ifs|](_ => Origin);
      a[0] := start;
      for i := 1 to |ifs|
        invariant a[0] == start
        invariant forall k :: 1 <= k < i ==> a[k] == Step(scale, a[k - 1], corners[ifs[k] - 1])
      {
        a[i] := Step(scale, a[i - 1], corners[ifs[i] - 1]);
      }
      pos := a[..];
    }

    /** GenerateFractal: the errors of GenerateIFS; then the IndexError of pos[0]
        when the stream is empty; otherwise as many positions as the counts add up
        to, forming an orbit from the start over the numCorners real corners of the
        board, and following a stream in which corner k occurs exactly count[k-1] times. */
    method GenerateFractal(probs: seq<real>, numPoints: int, start: Point, cornerAtOrigin: bool,
                           cos: real -> real, sin: real -> real, rng: nat -> nat)
      returns (r: Result<Fractal>)
      ensures FrequencyPlan(probs, numCorners, numPoints).Failure? ==>
        r == Failure(FrequencyPlan(probs, numCorners, numPoints).error)
      ensures FrequencyPlan(probs, numCorners, numPoints).Success? ==>
        (r.Success? <==> Total(FrequencyPlan(probs, numCorners, numPoints).value) > 0)
      ensures r.Failure? && FrequencyPlan(probs, numCorners, numPoints).Success? ==> r.error == EmptyStream
      ensures r.Success? ==>
        && numCorners >= 1
        && |r.value.pos| == Total(FrequencyPlan(probs, numCorners, numPoints).value)
        && IsBoard(r.value.corners, numCorners, cornerAtOrigin, cos, sin)
        && IsOrbit(r.value.pos, r.value.corners[..numCorners], start, scale)
      // the positions follow a stream holding each corner as often as its count says
      ensures r.Success? ==>
        (exists ifs :: (&& multiset(ifs) == multiset(Layout(FrequencyPlan(probs, numCorners, numPoints).value))
                        && FollowsStream(r.value.pos, ifs, r.value.corners, start, scale)))
    {
      ghost var plan := FrequencyPlan(probs, numCorners, numPoints);
      var ifs :- GenerateIFS(probs, numPoints, rng);
      assert |ifs| == Total(plan.value);
      if |ifs| == 0 {
        return Failure(EmptyStream);
      }
      var corners := GenerateBoard(cornerAtOrigin, cos, sin);
      StreamInRange(ifs, numCorners, |corners|);
      var pos := Iterate(ifs, corners, start);
      StreamIsOrbit(pos, ifs, corners, numCorners, start, scale);
      r := Success(Fractal(pos, corners));
      assert multiset(ifs) == multiset(Layout(plan.value)) && FollowsStream(r.value.pos, ifs, r.value.corners, start, scale);
    }
  }

  /** np.random.shuffle: the Fisher-Yates shuffle, swapping slot i with a slot
      j <= i drawn from rng, for i from the last slot down to 1. Only the outcome
      being a permutation is modelled, not the distribution of the draws. */
  method Shuffle(a: array<int>, rng: nat -> nat)
    modifies a
    ensures multiset(a[..]) == multiset(old(a[..]))
  {
    var i := a.Length;
    while i > 1
      invariant 0 <= i <= a.Length
      invariant multiset(a[..]) == multiset(old(a[..]))
    {
      i := i - 1;
      var j := rng(a.Length - 1 - i) % (i + 1);
      a[i], a[j] := a[j], a[i];
    }
  }

  /** An index stream of corner numbers 1..n is a valid stream for any board of at least n slots. */
  lemma StreamInRange(ifs: seq<int>, n: int, slots: int)
    requires forall x :: x in ifs ==> 1 <= x <= n
    requires n <= slots
    ensures forall i :: 1 <= i < |ifs| ==> 1 <= ifs[i] <= slots
  {
    forall i | 1 <= i < |ifs| ensures 1 <= ifs[i] <= slots {
      assert ifs[i] in ifs;
    }
  }

  /** Following a stream of corner numbers 1..n makes an orbit over the first n slots. */
  lemma StreamIsOrbit(pos: seq<Point>, ifs: seq<int>, corners: seq<Point>, n: nat, start: Point, s: real)
    requires FollowsStream(pos, ifs, corners, start, s)
    requires forall x :: x in ifs ==> 1 <= x <= n
    requires n <= |corners|
    ensures IsOrbit(pos, corners[..n], start, s)
  {
    var used := corners[..n];
    forall i | 1 <= i < |pos| ensures MovesToward(pos[i - 1], pos[i], used, s) {
      assert ifs[i] in ifs;
      var j := ifs[i] - 1;
      assert used[j] == corners[j];
    }
  }

  /** With 0 <= scale <= 1, a start in [-1,1]^2 and cos, sin bounded by 1, every
      position GenerateFractal returns lies in [-1,1]^2. */
  lemma FractalStaysInSquare(f: Fractal, n: nat, cornerAtOrigin: bool, cos: real -> real, sin: real -> real,
                             start: Point, s: real)
    requires IsBoard(f.corners, n, cornerAtOrigin, cos, sin)
    requires IsOrbit(f.pos, f.corners[..n], start, s)
    requires 0.0 <= s <= 1.0
    requires InUnitSquare(start)
    requires forall t :: -1.0 <= cos(t) <= 1.0
    requires forall t :: -1.0 <= sin(t) <= 1.0
    ensures forall i :: 0 <= i < |f.pos| ==> InUnitSquare(f.pos[i])
  {
    BoardInSquare(f.corners, n, cornerAtOrigin, cos, sin);
    OrbitStaysInSquare(f.pos, f.corners[..n], start, s);
  }
}
