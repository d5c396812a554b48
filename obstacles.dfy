/**
 * Obstacles as values: the fixed catalogues of obstacle types and colours,
 * the random pick from a catalogue, the construction of one obstacle and the
 * cleanup filter, with the properties they promise.
 */
module Obstacles {

  datatype Vector3 = Vector3(x: real, y: real, z: real)

  datatype Color3 = Color3(r: real, g: real, b: real)

  /** An entry of the colour catalogue. */
  datatype MaterialColor = MaterialColor(name: string, color: Color3)

  /** An entry of the obstacle-type catalogue: box dimensions and allowed lateral offsets. */
  datatype ObstacleType = ObstacleType(name: string, height: real, width: real, depth: real, xPositions: seq<real>)

  /** An obstacle box: its type (hence its dimensions), its colour and its position. */
  datatype Obstacle = Obstacle(kind: ObstacleType, material: MaterialColor, position: Vector3)

  const MaterialColors: seq<MaterialColor> := [
    MaterialColor("red", Color3(1.0, 0.0, 0.0)),
    MaterialColor("blue", Color3(0.0, 0.0, 1.0)),
    MaterialColor("green", Color3(0.0, 1.0, 0.0)),
    MaterialColor("purple", Color3(0.5, 0.0, 0.5))
  ]

  const ObstacleTypes: seq<ObstacleType> := [
    ObstacleType("duck", 0.5, 3.0, 1.0, [0.2, 0.27, -0.2]),
    ObstacleType("stepLeft", 3.0, 3.0, 1.0, [1.0, 1.45]),
    ObstacleType("stepRight", 3.0, 3.0, 1.0, [-1.0, -1.45])
  ]

  /** Every obstacle type offers at least one lateral position. */
  lemma CataloguesNonEmpty()
    ensures |MaterialColors| > 0 && |ObstacleTypes| > 0
    ensures forall t | t in ObstacleTypes :: |t.xPositions| > 0
  {
  }

  /** The range of the injected random source: a real in [0, 1). */
  predicate IsRandom(u: real)
  {
    0.0 <= u < 1.0
  }

  /** The index picked from a catalogue of `n` entries by the random draw `u`: floor(u * n). */
  function RandomIndex(n: nat, u: real): (k: nat)
    requires n > 0 && IsRandom(u)
    ensures k < n
    ensures k as real <= u * n as real < k as real + 1.0
  {
    var p := u * n as real;
    assert 0.0 <= p < n as real by {
      assert u * n as real < 1.0 * n as real;
    }
    p.Floor
  }

  /** Every index is drawn by some random value, so the pick can reach every entry. */
  lemma RandomIndexCovers(n: nat, i: nat)
    requires i < n
    ensures IsRandom(i as real / n as real)
    ensures RandomIndex(n, i as real / n as real) == i
  {
    var u := i as real / n as real;
    assert u * n as real == i as real;
    assert 0.0 <= u;
    assert u < 1.0 by {
      assert u * n as real < 1.0 * n as real;
    }
  }

  /** A random entry of a non-empty catalogue. */
  function GetRandomItem<T>(items: seq<T>, u: real): (r: T)
    requires |items| > 0 && IsRandom(u)
    ensures r in items
    ensures exists k :: 0 <= k < |items| && k as real <= u * |items| as real < k as real + 1.0 && items[k] == r
  {
    items[RandomIndex(|items|, u)]
  }

  /** Every entry of a catalogue is the pick of some random value. */
  lemma GetRandomItemCovers<T>(items: seq<T>, i: nat)
    requires i < |items|
    ensures IsRandom(i as real / |items| as real)
    ensures GetRandomItem(items, i as real / |items| as real) == items[i]
  {
    RandomIndexCovers(|items|, i);
  }

  /**
   * What every created obstacle satisfies: its type and colour come from the
   * catalogues, its lateral offset is one its type allows, and it stands on
   * the ground (its centre is at half its height).
   */
  predicate WellFormed(o: Obstacle)
  {
    && o.kind in ObstacleTypes
    && o.material in MaterialColors
    && o.position.x in o.kind.xPositions
    && o.position.y == o.kind.height / 2.0
  }

  /** The obstacle built from three random draws, placed at depth `z`. */
  function MakeObstacle(uType: real, uColor: real, uX: real, z: real): (o: Obstacle)
    requires IsRandom(uType) && IsRandom(uColor) && IsRandom(uX)
    ensures WellFormed(o)
    ensures o.position.z == z
  {
    CataloguesNonEmpty();
    var kind := GetRandomItem(ObstacleTypes, uType);
    var material := GetRandomItem(MaterialColors, uColor);
    var x := GetRandomItem(kind.xPositions, uX);
    Obstacle(kind, material, Vector3(x, kind.height / 2.0, z))
  }

  /** Every well-formed obstacle at every depth is built by some random draws. */
  lemma MakeObstacleCovers(o: Obstacle)
    requires WellFormed(o)
    ensures exists uType, uColor, uX ::
      IsRandom(uType) && IsRandom(uColor) && IsRandom(uX) && MakeObstacle(uType, uColor, uX, o.position.z) == o
  {
    var ti :| 0 <= ti < |ObstacleTypes| && ObstacleTypes[ti] == o.kind;
    var ci :| 0 <= ci < |MaterialColors| && MaterialColors[ci] == o.material;
    var xs := o.kind.xPositions;
    var xi :| 0 <= xi < |xs| && xs[xi] == o.position.x;
    GetRandomItemCovers(ObstacleTypes, ti);
    GetRandomItemCovers(MaterialColors, ci);
    GetRandomItemCovers(xs, xi);
    var uType, uColor, uX := ti as real / |ObstacleTypes| as real, ci as real / |MaterialColors| as real, xi as real / |xs| as real;
    assert MakeObstacle(uType, uColor, uX, o.position.z) == o;
  }

  /** The depth behind the player beyond which an obstacle is discarded. */
  const CleanupZ: real := -10.0

  predicate Expired(o: Obstacle)
  {
    o.position.z < CleanupZ
  }

  /** The obstacles that the cleanup keeps, in their original order. */
  function Survivors(s: seq<Obstacle>): (r: seq<Obstacle>)
    ensures |r| <= |s|
    ensures forall o :: o in r <==> o in s && !Expired(o)
  {
    if s == [] then []
    else if Expired(s[0]) then Survivors(s[1..])
    else [s[0]] + Survivors(s[1..])
  }

  /** Cleanup works element by element: it distributes over concatenation, so it keeps order. */
  lemma {:induction false} SurvivorsAppend(a: seq<Obstacle>, b: seq<Obstacle>)
    ensures Survivors(a + b) == Survivors(a) + Survivors(b)
  {
    if a == [] {
      assert a + b == b;
    } else {
      assert (a + b)[0] == a[0];
      assert (a + b)[1..] == a[1..] + b;
      SurvivorsAppend(a[1..], b);
    }
  }

  /** Cleanup never removes an obstacle that has not passed the threshold. */
  lemma {:induction false} SurvivorsOfLive(s: seq<Obstacle>)
    requires forall i | 0 <= i < |s| :: !Expired(s[i])
    ensures Survivors(s) == s
  {
    if s != [] {
      SurvivorsOfLive(s[1..]);
    }
  }

  /** A second cleanup removes nothing more. */
  lemma SurvivorsIdempotent(s: seq<Obstacle>)
    ensures Survivors(Survivors(s)) == Survivors(s)
  {
    var r := Survivors(s);
    forall i | 0 <= i < |r| ensures !Expired(r[i]) {
      assert r[i] in r;
    }
    SurvivorsOfLive(r);
  }

  /** The obstacles lie at strictly increasing depths, in list order. */
  predicate AscendingZ(s: seq<Obstacle>)
  {
    forall i, j | 0 <= i < j < |s| :: s[i].position.z < s[j].position.z
  }

  /** Cleanup keeps the depths strictly increasing. */
  lemma {:induction false} SurvivorsAscending(s: seq<Obstacle>)
    requires AscendingZ(s)
    ensures AscendingZ(Survivors(s))
  {
    if s != [] {
      var tail := s[1..];
      assert AscendingZ(tail) by {
        forall i, j | 0 <= i < j < |tail| ensures tail[i].position.z < tail[j].position.z {
          assert tail[i] == s[i + 1] && tail[j] == s[j + 1];
        }
      }
      SurvivorsAscending(tail);
      if !Expired(s[0]) {
        var r := Survivors(tail);
        forall k | 0 <= k < |r| ensures s[0].position.z < r[k].position.z {
          assert r[k] in r;
          var m :| 0 <= m < |tail| && tail[m] == r[k];
          assert tail[m] == s[m + 1];
        }
        assert Survivors(s) == [s[0]] + r;
      }
    }
  }
}
