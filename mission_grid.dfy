/**
 * The deterministic part of `generateMiniMission`: the object types of all
 * rounds are collected into a `Set`, one image is fetched per distinct type,
 * each round's `{type, count}` list is expanded into grid objects with ids
 * `type-i`, the grid is shuffled in place by Fisher-Yates, and the ids of the
 * objects of the correct type are read off the shuffled grid.
 *
 * `Math.random()` is replaced by a supplied choice: `pick(r, i)` is the index
 * `j` (with `j <= i`) drawn at step `i` of round `r`'s shuffle.
 */
module MissionGrid {
  import opened Wrappers
  import opened JsText
  import opened JsNumber
  import opened ImageFetch
  import opened Types

  /** One `{type, count}` entry of a round design; `count` is whatever integer the backend sent. */
  datatype ObjectCount = ObjectCount(objectType: string, count: int)

  datatype RoundDesign = RoundDesign(
    instructions: string,
    skillToTest: string,
    gameMode: string,
    objectTypes: seq<ObjectCount>,
    correctObjectType: string)

  /** The parsed answer of the mission-design call. */
  datatype MissionDesign = MissionDesign(title: string, rounds: seq<RoundDesign>)

  // ---------------------------------------------------------------------------
  // Distinct object types, in order of first appearance

  function TypesOf(ots: seq<ObjectCount>): (r: seq<string>)
    ensures |r| == |ots| && forall k :: 0 <= k < |ots| ==> r[k] == ots[k].objectType
  {
    if ots == [] then [] else [ots[0].objectType] + TypesOf(ots[1..])
  }

  /** Every object type named by every round, rounds in order. */
  function AllTypes(rounds: seq<RoundDesign>): seq<string>
  {
    if rounds == [] then []
    else AllTypes(rounds[..|rounds| - 1]) + TypesOf(rounds[|rounds| - 1].objectTypes)
  }

  lemma AllTypesAppend(rounds: seq<RoundDesign>, k: nat)
    requires k < |rounds|
    ensures AllTypes(rounds[..k + 1]) == AllTypes(rounds[..k]) + TypesOf(rounds[k].objectTypes)
  {
    assert rounds[..k + 1][..k] == rounds[..k];
  }

  lemma TypesOfPrefix(ots: seq<ObjectCount>, k: nat)
    requires k < |ots|
    ensures TypesOf(ots[..k + 1]) == TypesOf(ots[..k]) + [ots[k].objectType]
  {
  }

  /** The `forEach` that fills `allUniqueObjectTypes`. */
  method CollectTypes(rounds: seq<RoundDesign>) returns (types: seq<string>)
    ensures types == Distinct(AllTypes(rounds))
  {
    types := [];
    var r := 0;
    while r < |rounds|
      invariant 0 <= r <= |rounds|
      invariant types == AddAll([], AllTypes(rounds[..r]))
    {
      var ots := rounds[r].objectTypes;
      var k := 0;
      assert AllTypes(rounds[..r]) + TypesOf(ots[..0]) == AllTypes(rounds[..r]);
      while k < |ots|
        invariant 0 <= k <= |ots|
        invariant types == AddAll([], AllTypes(rounds[..r]) + TypesOf(ots[..k]))
      {
        TypesOfPrefix(ots, k);
        assert AllTypes(rounds[..r]) + TypesOf(ots[..k + 1])
            == (AllTypes(rounds[..r]) + TypesOf(ots[..k])) + [ots[k].objectType];
        AddAllAppend([], AllTypes(rounds[..r]) + TypesOf(ots[..k]), [ots[k].objectType]);
        if ots[k].objectType !in types {
          types := types + [ots[k].objectType];
        }
        k := k + 1;
      }
      assert ots[..k] == ots;
      AllTypesAppend(rounds, r);
      r := r + 1;
    }
    assert rounds[..r] == rounds;
  }

  /** Each type that occurs in both rounds is fetched once: the list has no repeats and misses no type. */
  lemma TypesFetchedOnce(rounds: seq<RoundDesign>)
    ensures NoDup(Distinct(AllTypes(rounds)))
    ensures forall t :: t in Distinct(AllTypes(rounds)) <==> t in AllTypes(rounds)
    ensures |Distinct(AllTypes(rounds))| <= |AllTypes(rounds)|
  {
    DistinctFacts(AllTypes(rounds));
  }

  // ---------------------------------------------------------------------------
  // The image cache

  /** The URL that the k-th image request ends with. */
  function TypeImage(provider: nat -> nat -> ImageOutcome, jitter: nat -> nat -> int, k: nat): string
  {
    Run(provider(k), jitter(k), DefaultMaxRetries, 0).url
  }

  /** The `for...of` loop that fills `imageUrlsCache`, one request per type, in order. */
  method FetchTypeImages(types: seq<string>, provider: nat -> nat -> ImageOutcome, jitter: nat -> nat -> int)
    returns (cache: map<string, string>, requested: seq<string>)
    ensures requested == types
    ensures cache == ImageCache(types, provider, jitter)
  {
    cache, requested := map[], [];
    var k := 0;
    while k < |types|
      invariant 0 <= k <= |types|
      invariant requested == types[..k]
      invariant cache == ImageCacheAfter(types, provider, jitter, k)
    {
      var url, _, _ := GenerateImage(provider(k), jitter(k), DefaultMaxRetries);
      cache := cache[types[k] := url];
      requested := requested + [types[k]];
      k := k + 1;
    }
    assert types[..k] == types;
  }

  // ---------------------------------------------------------------------------
  // Grid expansion

  /** `${type}-${i}`. */
  function ObjectId(objectType: string, i: nat): string
  {
    objectType + "-" + Decimal(i)
  }

  /**
   * `imageUrlsCache[type] || ''` as intended: the URL fetched for the type,
   * or '' for a type that was never fetched. The plain object the source
   * uses departs from this for one key; see CachedImageAsWritten.
   */
  function CachedImage(cache: map<string, string>, t: string): string
  {
    if t in cache then cache[t] else ""
  }

  /** The objects `type-0 .. type-(n-1)` of one entry, where `n` is its count (none for a count below 1). */
  function ExpandOne(ot: ObjectCount, cache: map<string, string>): (r: seq<GameObject>)
    ensures |r| == if ot.count > 0 then ot.count else 0
    ensures forall i :: 0 <= i < |r| ==>
      r[i] == GameObject(ObjectId(ot.objectType, i), ot.objectType, CachedImage(cache, ot.objectType))
  {
    var n := if ot.count > 0 then ot.count else 0;
    seq(n, i requires 0 <= i < n => GameObject(ObjectId(ot.objectType, i), ot.objectType, CachedImage(cache, ot.objectType)))
  }

  /** The unshuffled grid: every entry expanded, entries in order. */
  function Expand(ots: seq<ObjectCount>, cache: map<string, string>): seq<GameObject>
  {
    if ots == [] then [] else ExpandOne(ots[0], cache) + Expand(ots[1..], cache)
  }

  /** The number of grid objects the counts ask for. */
  function SumCounts(ots: seq<ObjectCount>): nat
  {
    if ots == [] then 0 else (if ots[0].count > 0 then ots[0].count else 0) + SumCounts(ots[1..])
  }

  lemma {:induction false} ExpandSize(ots: seq<ObjectCount>, cache: map<string, string>)
    ensures |Expand(ots, cache)| == SumCounts(ots)
  {
    if ots != [] {
      ExpandSize(ots[1..], cache);
    }
  }

  lemma {:induction false} ExpandAppend(ots: seq<ObjectCount>, k: nat, cache: map<string, string>)
    requires k < |ots|
    ensures Expand(ots[..k + 1], cache) == Expand(ots[..k], cache) + ExpandOne(ots[k], cache)
  {
    if k > 0 {
      assert ots[..k + 1][1..] == ots[1..][..k];
      assert ots[..k][1..] == ots[1..][..k - 1];
      ExpandAppend(ots[1..], k - 1, cache);
    } else {
      assert ots[..1][1..] == [];
    }
  }

  /** The nested loops that push the grid objects of one round. */
  method BuildGrid(ots: seq<ObjectCount>, cache: map<string, string>) returns (grid: seq<GameObject>)
    ensures grid == Expand(ots, cache)
  {
    grid := [];
    var k := 0;
    while k < |ots|
      invariant 0 <= k <= |ots|
      invariant grid == Expand(ots[..k], cache)
    {
      var ot := ots[k];
      ghost var before := grid;
      var i := 0;
      while i < ot.count
        invariant 0 <= i <= |ExpandOne(ot, cache)|
        invariant grid == before + ExpandOne(ot, cache)[..i]
      {
        grid := grid + [GameObject(ObjectId(ot.objectType, i), ot.objectType, CachedImage(cache, ot.objectType))];
        assert ExpandOne(ot, cache)[..i + 1] == ExpandOne(ot, cache)[..i] + [ExpandOne(ot, cache)[i]];
        i := i + 1;
      }
      assert ExpandOne(ot, cache)[..i] == ExpandOne(ot, cache);
      ExpandAppend(ots, k, cache);
      k := k + 1;
    }
    assert ots[..k] == ots;
  }

  // ---------------------------------------------------------------------------
  // Ids are unique when the types of a round are

  /** The position of the last `c` in `s`, or -1. */
  function LastIndexOf(s: string, c: char): int
  {
    if s == [] then -1 else if s[|s| - 1] == c then |s| - 1 else LastIndexOf(s[..|s| - 1], c)
  }

  lemma {:induction false} LastIndexOfSplit(a: string, c: char, d: string)
    requires c !in d
    ensures LastIndexOf(a + [c] + d, c) == |a|
    decreases |d|
  {
    var s := a + [c] + d;
    if d == [] {
      assert s[|s| - 1] == c;
    } else {
      var d' := d[..|d| - 1];
      assert s[..|s| - 1] == a + [c] + d';
      assert s[|s| - 1] == d[|d| - 1];
      LastIndexOfSplit(a, c, d');
    }
  }

  /** An id names its type and ordinal: the last `-` separates them, since a numeral has none. */
  lemma ObjectIdInjective(t1: string, i1: nat, t2: string, i2: nat)
    requires ObjectId(t1, i1) == ObjectId(t2, i2)
    ensures t1 == t2 && i1 == i2
  {
    var d1, d2 := Decimal(i1), Decimal(i2);
    var s := ObjectId(t1, i1);
    assert s == t1 + ['-'] + d1 == t2 + ['-'] + d2;
    LastIndexOfSplit(t1, '-', d1);
    LastIndexOfSplit(t2, '-', d2);
    assert t1 == s[..|t1|];
    assert d1 == s[|t1| + 1..];
    NumeralOfDecimal(i1);
    NumeralOfDecimal(i2);
  }

  /** The ids of a grid, in grid order. */
  function Ids(g: seq<GameObject>): (ids: seq<string>)
    ensures |ids| == |g| && forall k :: 0 <= k < |g| ==> ids[k] == g[k].id
  {
    if g == [] then [] else [g[0].id] + Ids(g[1..])
  }

  /** Every object of the unshuffled grid is the `i`-th object of some entry `e`. */
  lemma {:induction false} ExpandAt(ots: seq<ObjectCount>, cache: map<string, string>, p: nat)
    requires p < |Expand(ots, cache)|
    ensures exists e, i :: (0 <= e < |ots| && 0 <= i < ots[e].count &&
      Expand(ots, cache)[p].id == ObjectId(ots[e].objectType, i))
  {
    var head := ExpandOne(ots[0], cache);
    if p < |head| {
      assert Expand(ots, cache)[p] == head[p];
      assert 0 <= 0 < |ots| && 0 <= p < ots[0].count;
    } else {
      assert Expand(ots, cache)[p] == Expand(ots[1..], cache)[p - |head|];
      ExpandAt(ots[1..], cache, p - |head|);
      var e, i :| 0 <= e < |ots[1..]| && 0 <= i < ots[1..][e].count &&
        Expand(ots[1..], cache)[p - |head|].id == ObjectId(ots[1..][e].objectType, i);
      assert ots[1..][e] == ots[e + 1];
    }
  }

  /** The ids of one entry's objects are pairwise distinct. */
  lemma ExpandOneIdsUnique(ot: ObjectCount, cache: map<string, string>)
    ensures NoDup(Ids(ExpandOne(ot, cache)))
  {
    var h := ExpandOne(ot, cache);
    forall p, q | 0 <= p < q < |h| ensures Ids(h)[p] != Ids(h)[q] {
      if Ids(h)[p] == Ids(h)[q] {
        ObjectIdInjective(ot.objectType, p, ot.objectType, q);
      }
    }
  }

  /** An object of the first entry never shares its id with an object of a later entry of another type. */
  lemma HeadIdNotInTail(ots: seq<ObjectCount>, cache: map<string, string>, p: nat, q: nat)
    requires ots != [] && NoDup(TypesOf(ots))
    requires p < |ExpandOne(ots[0], cache)| && q < |Expand(ots[1..], cache)|
    ensures ExpandOne(ots[0], cache)[p].id != Expand(ots[1..], cache)[q].id
  {
    ExpandAt(ots[1..], cache, q);
    var e, i :| 0 <= e < |ots[1..]| && 0 <= i < ots[1..][e].count &&
      Expand(ots[1..], cache)[q].id == ObjectId(ots[1..][e].objectType, i);
    assert TypesOf(ots)[0] != TypesOf(ots)[e + 1];
    if ExpandOne(ots[0], cache)[p].id == Expand(ots[1..], cache)[q].id {
      ObjectIdInjective(ots[0].objectType, p, ots[1..][e].objectType, i);
    }
  }

  /** When no type repeats within a round, no id repeats within its grid. */
  lemma {:induction false} ExpandIdsUnique(ots: seq<ObjectCount>, cache: map<string, string>)
    requires NoDup(TypesOf(ots))
    ensures NoDup(Ids(Expand(ots, cache)))
  {
    if ots != [] {
      var head := ExpandOne(ots[0], cache);
      var tail := Expand(ots[1..], cache);
      var ids := Ids(head + tail);
      assert Expand(ots, cache) == head + tail;
      assert NoDup(TypesOf(ots[1..])) by {
        assert forall k :: 0 <= k < |ots[1..]| ==> TypesOf(ots[1..])[k] == TypesOf(ots)[k + 1];
      }
      ExpandIdsUnique(ots[1..], cache);
      ExpandOneIdsUnique(ots[0], cache);
      forall p, q | 0 <= p < q < |ids| ensures ids[p] != ids[q] {
        if q < |head| {
          assert ids[p] == Ids(head)[p] && ids[q] == Ids(head)[q];
        } else if p >= |head| {
          assert ids[p] == Ids(tail)[p - |head|] && ids[q] == Ids(tail)[q - |head|];
        } else {
          HeadIdNotInTail(ots, cache, p, q - |head|);
        }
      }
    }
  }

  // ---------------------------------------------------------------------------
  // The Fisher-Yates shuffle

  function Swap<T>(s: seq<T>, i: nat, j: nat): (r: seq<T>)
    requires i < |s| && j < |s|
    ensures |r| == |s|
  {
    s[i := s[j]][j := s[i]]
  }

  /** The grid after the steps `i, i-1, .., 1` of the shuffle. */
  function ShuffleFrom<T>(s: seq<T>, pick: nat -> nat, i: int): (r: seq<T>)
    requires i < |s|
    requires forall k: nat :: pick(k) <= k
    ensures |r| == |s|
    decreases if i < 0 then 0 else i
  {
    if i <= 0 then s else ShuffleFrom(Swap(s, i, pick(i)), pick, i - 1)
  }

  /** The whole shuffle of a grid. */
  function Shuffled<T>(s: seq<T>, pick: nat -> nat): (r: seq<T>)
    requires forall k: nat :: pick(k) <= k
    ensures |r| == |s|
  {
    ShuffleFrom(s, pick, |s| - 1)
  }

  /** `for (let i = n - 1; i > 0; i--) { swap gridObjects[i] and gridObjects[j] }`, in place. */
  method Shuffle<T>(a: array<T>, pick: nat -> nat)
    requires forall k: nat :: pick(k) <= k
    modifies a
    ensures a[..] == Shuffled(old(a[..]), pick)
  {
    var i := a.Length - 1;
    while i > 0
      invariant -1 <= i < a.Length
      invariant ShuffleFrom(a[..], pick, i) == Shuffled(old(a[..]), pick)
    {
      var j := pick(i);
      assert Swap(a[..], i, j) == a[..][i := a[j]][j := a[i]];
      a[i], a[j] := a[j], a[i];
      i := i - 1;
    }
  }

  lemma SwapPermutes<T>(s: seq<T>, i: nat, j: nat)
    requires i < |s| && j < |s|
    ensures multiset(Swap(s, i, j)) == multiset(s)
  {
  }

  /** The shuffle only swaps, so the grid keeps its objects, each as often as before. */
  lemma {:induction false} ShufflePermutes<T>(s: seq<T>, pick: nat -> nat, i: int)
    requires i < |s|
    requires forall k: nat :: pick(k) <= k
    ensures multiset(ShuffleFrom(s, pick, i)) == multiset(s)
    decreases if i < 0 then 0 else i
  {
    if i > 0 {
      SwapPermutes(s, i, pick(i));
      ShufflePermutes(Swap(s, i, pick(i)), pick, i - 1);
    }
  }

  // ---------------------------------------------------------------------------
  // The correct ids

  /** `grid.filter(obj => obj.type === t).map(obj => obj.id)`. */
  function CorrectIds(grid: seq<GameObject>, t: string): (ids: seq<string>)
    ensures |ids| <= |grid|
  {
    if grid == [] then []
    else (if grid[0].objectType == t then [grid[0].id] else []) + CorrectIds(grid[1..], t)
  }

  lemma {:induction false} CorrectIdsAppend(a: seq<GameObject>, b: seq<GameObject>, t: string)
    ensures CorrectIds(a + b, t) == CorrectIds(a, t) + CorrectIds(b, t)
  {
    if a != [] {
      assert (a + b)[1..] == a[1..] + b;
      CorrectIdsAppend(a[1..], b, t);
    } else {
      assert a + b == b;
    }
  }

  /** An id is listed exactly when some grid object of type `t` carries it. */
  lemma {:induction false} CorrectIdsMembers(grid: seq<GameObject>, t: string, x: string)
    ensures x in CorrectIds(grid, t) <==> exists k :: 0 <= k < |grid| && grid[k].objectType == t && grid[k].id == x
  {
    if grid != [] {
      CorrectIdsMembers(grid[1..], t, x);
      if exists k :: 0 <= k < |grid| && grid[k].objectType == t && grid[k].id == x {
        var k :| 0 <= k < |grid| && grid[k].objectType == t && grid[k].id == x;
        if k > 0 {
          assert grid[1..][k - 1] == grid[k];
        }
      }
      if exists k :: 0 <= k < |grid[1..]| && grid[1..][k].objectType == t && grid[1..][k].id == x {
        var k :| 0 <= k < |grid[1..]| && grid[1..][k].objectType == t && grid[1..][k].id == x;
        assert grid[k + 1] == grid[1..][k];
      }
    }
  }

  lemma CorrectIdsOfFive(a: seq<GameObject>, x: GameObject, b: seq<GameObject>, y: GameObject, c: seq<GameObject>, t: string)
    ensures CorrectIds(a + [x] + b + [y] + c, t)
         == CorrectIds(a, t) + CorrectIds([x], t) + CorrectIds(b, t) + CorrectIds([y], t) + CorrectIds(c, t)
  {
    CorrectIdsAppend(a + [x] + b + [y], c, t);
    CorrectIdsAppend(a + [x] + b, [y], t);
    CorrectIdsAppend(a + [x], b, t);
    CorrectIdsAppend(a, [x], t);
  }

  lemma ExchangeKeepsCorrectIds(a: seq<GameObject>, x: GameObject, b: seq<GameObject>, y: GameObject, c: seq<GameObject>, t: string)
    ensures multiset(CorrectIds(a + [y] + b + [x] + c, t)) == multiset(CorrectIds(a + [x] + b + [y] + c, t))
  {
    CorrectIdsOfFive(a, x, b, y, c, t);
    CorrectIdsOfFive(a, y, b, x, c, t);
    var ca, cx, cb, cy, cc := CorrectIds(a, t), CorrectIds([x], t), CorrectIds(b, t), CorrectIds([y], t), CorrectIds(c, t);
    assert multiset(ca + cx + cb + cy + cc) == multiset(ca) + multiset(cx) + multiset(cb) + multiset(cy) + multiset(cc);
    assert multiset(ca + cy + cb + cx + cc) == multiset(ca) + multiset(cy) + multiset(cb) + multiset(cx) + multiset(cc);
  }

  /** Filtering a swapped grid gives the same ids, each as often. */
  lemma SwapKeepsCorrectIds(s: seq<GameObject>, i: nat, j: nat, t: string)
    requires i < |s| && j < |s|
    ensures multiset(CorrectIds(Swap(s, i, j), t)) == multiset(CorrectIds(s, t))
  {
    if i == j {
      assert Swap(s, i, j) == s;
    } else {
      var lo, hi := if i < j then i else j, if i < j then j else i;
      var a, x, b, y, c := s[..lo], s[lo], s[lo + 1..hi], s[hi], s[hi + 1..];
      assert s == a + [x] + b + [y] + c;
      assert Swap(s, i, j) == a + [y] + b + [x] + c;
      ExchangeKeepsCorrectIds(a, x, b, y, c, t);
    }
  }

  /** The shuffle never changes which ids are correct, nor how often each occurs: only their order. */
  lemma {:induction false} ShuffleKeepsCorrectIds(s: seq<GameObject>, pick: nat -> nat, i: int, t: string)
    requires i < |s|
    requires forall k: nat :: pick(k) <= k
    ensures multiset(CorrectIds(ShuffleFrom(s, pick, i), t)) == multiset(CorrectIds(s, t))
    decreases if i < 0 then 0 else i
  {
    if i > 0 {
      SwapKeepsCorrectIds(s, i, pick(i), t);
      ShuffleKeepsCorrectIds(Swap(s, i, pick(i)), pick, i - 1, t);
    }
  }

  // ---------------------------------------------------------------------------
  // The whole operation

  /** Round `r` as the service returns it, from the cache and the shuffle choices. */
  function PopulatedRound(design: RoundDesign, r: nat, cache: map<string, string>, pick: nat -> nat): GameRound
    requires forall k: nat :: pick(k) <= k
  {
    var grid := Shuffled(Expand(design.objectTypes, cache), pick);
    GameRound(r + 1, design.instructions, design.skillToTest, grid, CorrectIds(grid, design.correctObjectType), design.gameMode)
  }

  /** The `map` over the rounds: build, shuffle and filter each grid. */
  method PopulateRound(design: RoundDesign, r: nat, cache: map<string, string>, pick: nat -> nat)
    returns (round: GameRound)
    requires forall k: nat :: pick(k) <= k
    ensures round == PopulatedRound(design, r, cache, pick)
  {
    var grid := BuildGrid(design.objectTypes, cache);
    var a := new GameObject[|grid|](k requires 0 <= k < |grid| => grid[k]);
    assert a[..] == grid;
    Shuffle(a, pick);
    var shuffled := a[..];
    round := GameRound(r + 1, design.instructions, design.skillToTest, shuffled,
                       CorrectIds(shuffled, design.correctObjectType), design.gameMode);
  }

  /**
   * What each populated round promises: its number, its size, the objects of
   * the unshuffled grid, and correct ids that do not depend on the shuffle
   * (which ids they are is CorrectIdsMembers).
   */
  lemma PopulatedRoundFacts(design: RoundDesign, r: nat, cache: map<string, string>, pick: nat -> nat)
    requires forall k: nat :: pick(k) <= k
    ensures var round := PopulatedRound(design, r, cache, pick);
      var unshuffled := Expand(design.objectTypes, cache);
      && round.roundNumber == r + 1
      && |round.gridObjects| == SumCounts(design.objectTypes)
      && multiset(round.gridObjects) == multiset(unshuffled)
      && multiset(round.correctObjectIds) == multiset(CorrectIds(unshuffled, design.correctObjectType))
  {
    var unshuffled := Expand(design.objectTypes, cache);
    ExpandSize(design.objectTypes, cache);
    ShufflePermutes(unshuffled, pick, |unshuffled| - 1);
    ShuffleKeepsCorrectIds(unshuffled, pick, |unshuffled| - 1, design.correctObjectType);
  }

  function MiniMissionFailure(careerName: string): string
  {
    "Failed to create a mini-mission for a " + careerName + "."
  }

  /** The cache after the first `k` types have been fetched. */
  function ImageCacheAfter(types: seq<string>, provider: nat -> nat -> ImageOutcome, jitter: nat -> nat -> int, k: nat): map<string, string>
    requires k <= |types|
  {
    if k == 0 then map[] else ImageCacheAfter(types, provider, jitter, k - 1)[types[k - 1] := TypeImage(provider, jitter, k - 1)]
  }

  function ImageCache(types: seq<string>, provider: nat -> nat -> ImageOutcome, jitter: nat -> nat -> int): map<string, string>
  {
    ImageCacheAfter(types, provider, jitter, |types|)
  }

  /** With distinct types, the cache maps each type to the URL of its own request, and nothing else. */
  lemma {:induction false} ImageCacheFacts(types: seq<string>, provider: nat -> nat -> ImageOutcome, jitter: nat -> nat -> int, k: nat)
    requires NoDup(types) && k <= |types|
    ensures var m := ImageCacheAfter(types, provider, jitter, k);
      && (forall t :: t in m <==> t in types[..k])
      && forall i :: 0 <= i < k ==> types[i] in m && m[types[i]] == TypeImage(provider, jitter, i)
  {
    if k > 0 {
      ImageCacheFacts(types, provider, jitter, k - 1);
      var prev := ImageCacheAfter(types, provider, jitter, k - 1);
      var m := prev[types[k - 1] := TypeImage(provider, jitter, k - 1)];
      assert m == ImageCacheAfter(types, provider, jitter, k);
      assert types[..k] == types[..k - 1] + [types[k - 1]];
      forall t ensures t in m <==> t in types[..k] {
        assert t in types[..k] <==> t in types[..k - 1] || t == types[k - 1];
      }
      forall i | 0 <= i < k ensures types[i] in m && m[types[i]] == TypeImage(provider, jitter, i) {
        if i < k - 1 {
          assert types[i] != types[k - 1];
          assert types[i] in types[..k - 1];
        }
      }
    }
  }

  /** Every fetched type reads back the URL of its own request. */
  lemma CachedImageOfFetchedType(types: seq<string>, provider: nat -> nat -> ImageOutcome, jitter: nat -> nat -> int, k: nat)
    requires NoDup(types) && k < |types|
    ensures CachedImage(ImageCache(types, provider, jitter), types[k]) == TypeImage(provider, jitter, k)
  {
    ImageCacheFacts(types, provider, jitter, |types|);
  }

  /** What reading `imageUrlsCache[type] || ''` yields: a string, or the inherited `Object.prototype`. */
  datatype CacheRead = CachedUrl(url: string) | PrototypeObject

  /**
   * The lookup on the plain object as written. Storing a string under the
   * key "__proto__" runs the inherited accessor of section B.2.2.1 of
   * ECMA-262, which ignores any value that is neither an object nor null,
   * so no own property is made; reading that key then yields
   * `Object.prototype`, which is truthy, so `|| ''` keeps it. Every other
   * type becomes an own property when it is stored (even one named like an
   * inherited data property, such as "constructor"), and every type of a
   * grid is stored before any grid is built.
   */
  function CachedImageAsWritten(cache: map<string, string>, t: string): CacheRead
  {
    if t == "__proto__" then PrototypeObject else CachedUrl(CachedImage(cache, t))
  }

  /**
   * An object type named "__proto__" is fetched like every other type, but
   * its objects carry `Object.prototype` as their image instead of the URL
   * that was fetched for it.
   */
  lemma ProtoTypeLosesItsImage(types: seq<string>, provider: nat -> nat -> ImageOutcome, jitter: nat -> nat -> int, k: nat)
    requires NoDup(types) && k < |types| && types[k] == "__proto__"
    ensures CachedImage(ImageCache(types, provider, jitter), types[k]) == TypeImage(provider, jitter, k)
    ensures CachedImageAsWritten(ImageCache(types, provider, jitter), types[k]) == PrototypeObject
  {
    CachedImageOfFetchedType(types, provider, jitter, k);
  }

  /** The `map` over the rounds, each round numbered by its index plus one. */
  method PopulateRounds(designs: seq<RoundDesign>, cache: map<string, string>, pick: nat -> nat -> nat)
    returns (rounds: seq<GameRound>)
    requires forall r: nat, k: nat :: pick(r)(k) <= k
    ensures |rounds| == |designs|
    ensures forall r :: 0 <= r < |designs| ==> rounds[r] == PopulatedRound(designs[r], r, cache, pick(r))
  {
    rounds := [];
    var r := 0;
    while r < |designs|
      invariant 0 <= r <= |designs|
      invariant |rounds| == r
      invariant forall q :: 0 <= q < r ==> rounds[q] == PopulatedRound(designs[q], q, cache, pick(q))
    {
      var round := PopulateRound(designs[r], r, cache, pick(r));
      rounds := rounds + [round];
      r := r + 1;
    }
  }

  /**
   * `generateMiniMission`, from the parsed design (None when the call, or the
   * parse of its answer, failed). Returns the mission or the error message,
   * and the object types whose images were requested, in request order.
   */
  method GenerateMiniMission(
    careerName: string,
    design: Option<MissionDesign>,
    typeImages: nat -> nat -> ImageOutcome,
    jitter: nat -> nat -> int,
    pick: nat -> nat -> nat)
    returns (result: Result<MultiRoundMission, string>, requested: seq<string>)
    requires forall r: nat, k: nat :: pick(r)(k) <= k
    ensures design.None? ==> result == Failure(MiniMissionFailure(careerName)) && requested == []
    ensures design.Some? ==>
      var d := design.value;
      && requested == Distinct(AllTypes(d.rounds))
      && result.Success?
      && result.value.title == d.title
      && |result.value.rounds| == |d.rounds|
      && forall r :: 0 <= r < |d.rounds| ==>
           result.value.rounds[r] == PopulatedRound(d.rounds[r], r, ImageCache(requested, typeImages, jitter), pick(r))
  {
    if design.None? {
      return Failure(MiniMissionFailure(careerName)), [];
    }
    var d := design.value;
    var types := CollectTypes(d.rounds);
    var cache;
    cache, requested := FetchTypeImages(types, typeImages, jitter);
    var rounds := PopulateRounds(d.rounds, cache, pick);
    result := Success(MultiRoundMission(d.title, rounds));
  }
}
