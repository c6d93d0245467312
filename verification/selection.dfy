/**
 * The selection step of `evolveNextGeneration` in Main-Project/script/main.js:
 * drop the null cars, sort the rest by fitness, highest first, with a
 * stable sort (ties keep their order), and keep the first `numCars / 2`.
 */
module Selection {
  import opened Options
  import opened Cars

  /** `cars.filter(car => car !== null)`: the built cars, in their order. */
  function NonNull(cars: seq<Option<Car>>): (r: seq<Car>)
    ensures |r| <= |cars|
    ensures forall c :: c in r <==> Some(c) in cars
    ensures (forall i :: 0 <= i < |cars| ==> cars[i].Some?) ==>
      |r| == |cars| && forall i :: 0 <= i < |cars| ==> r[i] == cars[i].value
  {
    if cars == [] then []
    else
      var rest := NonNull(cars[1..]);
      assert forall c :: Some(c) in cars <==> Some(c) == cars[0] || Some(c) in cars[1..];
      assert forall i :: 1 <= i < |cars| ==> cars[1..][i - 1] == cars[i];
      if cars[0].Some? then [cars[0].value] + rest else rest
  }

  /** The filter works car by car: filtering two stretches filters their concatenation. */
  lemma {:induction false} NonNullConcat(a: seq<Option<Car>>, b: seq<Option<Car>>)
    ensures NonNull(a + b) == NonNull(a) + NonNull(b)
    decreases |a|
  {
    if a == [] {
      assert a + b == b;
    } else {
      assert (a + b)[0] == a[0];
      assert (a + b)[1..] == a[1..] + b;
      NonNullConcat(a[1..], b);
    }
  }

  /** Highest fitness first. */
  predicate SortedByFitness(s: seq<Car>) {
    forall i, j :: 0 <= i < j < |s| ==> s[i].fitness >= s[j].fitness
  }

  /**
   * Inserting into a list sorted highest first: `c` goes before the first
   * car whose fitness is not above its own, so it stays ahead of the cars
   * with the same fitness that came after it in the input.
   */
  function InsertByFitness(c: Car, s: seq<Car>): seq<Car> {
    if s == [] || c.fitness >= s[0].fitness then [c] + s
    else [s[0]] + InsertByFitness(c, s[1..])
  }

  /** The first car of `s` whose fitness is not above that of `c`, or |s| when there is none. */
  function InsertionPoint(c: Car, s: seq<Car>): (k: nat)
    ensures k <= |s|
    ensures forall i :: 0 <= i < k ==> s[i].fitness > c.fitness
    ensures k < |s| ==> s[k].fitness <= c.fitness
  {
    if s == [] || c.fitness >= s[0].fitness then 0
    else
      var k := InsertionPoint(c, s[1..]);
      assert forall i :: 1 <= i < k + 1 ==> s[i] == s[1..][i - 1];
      k + 1
  }

  /**
   * Insertion puts `c` just before the first car whose fitness is not
   * above its own, and leaves the other cars in their order.
   */
  lemma {:induction false} InsertAtPoint(c: Car, s: seq<Car>)
    ensures var k := InsertionPoint(c, s);
      InsertByFitness(c, s) == s[..k] + [c] + s[k..]
    decreases |s|
  {
    if s != [] && c.fitness < s[0].fitness {
      InsertAtPoint(c, s[1..]);
      var k := InsertionPoint(c, s[1..]);
      assert s[..k + 1] == [s[0]] + s[1..][..k];
      assert s[k + 1..] == s[1..][k..];
    }
  }

  /**
   * The order `sort((a, b) => b.fitness - a.fitness)` produces. That sort
   * is stable, so one stable order is the answer; insertion from the back
   * gives it.
   */
  function SortByFitness(s: seq<Car>): seq<Car> {
    if s == [] then [] else InsertByFitness(s[0], SortByFitness(s[1..]))
  }

  /** The cars of `s` with exactly fitness `f`, in their order in `s`. */
  function WithFitness(s: seq<Car>, f: real): seq<Car> {
    if s == [] then []
    else (if s[0].fitness == f then [s[0]] else []) + WithFitness(s[1..], f)
  }

  /** No car of `s` has fitness above `m`. */
  predicate AllAtMost(s: seq<Car>, m: real) {
    forall i :: 0 <= i < |s| ==> s[i].fitness <= m
  }

  /** Inserting a car no fitter than `m` into cars no fitter than `m` adds none fitter. */
  lemma {:induction false} InsertAtMost(c: Car, s: seq<Car>, m: real)
    requires AllAtMost(s, m) && c.fitness <= m
    ensures AllAtMost(InsertByFitness(c, s), m)
    decreases |s|
  {
    if s != [] && c.fitness < s[0].fitness {
      InsertAtMost(c, s[1..], m);
    }
  }

  /** Insertion adds exactly the one car. */
  lemma {:induction false} InsertPermutes(c: Car, s: seq<Car>)
    ensures multiset(InsertByFitness(c, s)) == multiset(s) + multiset{c}
    decreases |s|
  {
    if s != [] && c.fitness < s[0].fitness {
      InsertPermutes(c, s[1..]);
      assert s == [s[0]] + s[1..];
    }
  }

  /** Insertion keeps a list sorted highest first. */
  lemma {:induction false} InsertSorted(c: Car, s: seq<Car>)
    requires SortedByFitness(s)
    ensures SortedByFitness(InsertByFitness(c, s))
    decreases |s|
  {
    var r := InsertByFitness(c, s);
    if s == [] || c.fitness >= s[0].fitness {
      assert r == [c] + s;
      forall i, j | 0 <= i < j < |r| ensures r[i].fitness >= r[j].fitness {
        if i == 0 {
          assert r[j] == s[j - 1];
          assert s[0].fitness >= s[j - 1].fitness;
        } else {
          assert r[i] == s[i - 1] && r[j] == s[j - 1];
        }
      }
    } else {
      var tail := InsertByFitness(c, s[1..]);
      assert r == [s[0]] + tail;
      InsertSorted(c, s[1..]);
      assert AllAtMost(s[1..], s[0].fitness) by {
        forall i | 0 <= i < |s[1..]| ensures s[1..][i].fitness <= s[0].fitness {
          assert s[1..][i] == s[i + 1];
        }
      }
      InsertAtMost(c, s[1..], s[0].fitness);
      forall i, j | 0 <= i < j < |r| ensures r[i].fitness >= r[j].fitness {
        assert r[j] == tail[j - 1];
        if i > 0 {
          assert r[i] == tail[i - 1];
        }
      }
    }
  }

  /** The selection sort is highest first and rearranges the cars only. */
  lemma {:induction false} SortSorted(s: seq<Car>)
    ensures SortedByFitness(SortByFitness(s))
    ensures multiset(SortByFitness(s)) == multiset(s)
    ensures |SortByFitness(s)| == |s|
    decreases |s|
  {
    if s != [] {
      SortSorted(s[1..]);
      InsertSorted(s[0], SortByFitness(s[1..]));
      InsertPermutes(s[0], SortByFitness(s[1..]));
      assert s == [s[0]] + s[1..];
    }
  }

  lemma WithFitnessConcat(a: seq<Car>, b: seq<Car>, f: real)
    ensures WithFitness(a + b, f) == WithFitness(a, f) + WithFitness(b, f)
  {
    if a != [] {
      assert (a + b)[0] == a[0];
      assert (a + b)[1..] == a[1..] + b;
      WithFitnessConcat(a[1..], b, f);
    } else {
      assert a + b == b;
    }
  }

  /** The cars of fitness `f` among a single car. */
  lemma WithFitnessOne(c: Car, f: real)
    ensures WithFitness([c], f) == if c.fitness == f then [c] else []
  {
    assert [c][1..] == [];
  }

  /** Insertion keeps `c` ahead of the later cars with its fitness. */
  lemma {:induction false} InsertStable(c: Car, s: seq<Car>, f: real)
    ensures WithFitness(InsertByFitness(c, s), f) == WithFitness([c] + s, f)
    decreases |s|
  {
    if s != [] && c.fitness < s[0].fitness {
      var tail := InsertByFitness(c, s[1..]);
      InsertStable(c, s[1..], f);
      assert InsertByFitness(c, s) == [s[0]] + tail;
      assert s == [s[0]] + s[1..];
      WithFitnessConcat([s[0]], tail, f);
      WithFitnessConcat([c], s[1..], f);
      WithFitnessConcat([c], s, f);
      WithFitnessConcat([s[0]], s[1..], f);
      WithFitnessOne(c, f);
      WithFitnessOne(s[0], f);
      // c and s[0] differ in fitness, so at most one of them has fitness f
      if c.fitness == f {
        assert WithFitness([s[0]], f) == [];
      } else {
        assert WithFitness([c], f) == [];
      }
    }
  }

  /**
   * The sort is stable: for every fitness value, the cars with that
   * fitness appear in the sorted list in the order they had before.
   */
  lemma {:induction false} SortStable(s: seq<Car>, f: real)
    ensures WithFitness(SortByFitness(s), f) == WithFitness(s, f)
  {
    if s != [] {
      SortStable(s[1..], f);
      InsertStable(s[0], SortByFitness(s[1..]), f);
      WithFitnessConcat([s[0]], SortByFitness(s[1..]), f);
      WithFitnessConcat([s[0]], s[1..], f);
      assert s == [s[0]] + s[1..];
    }
  }

  /**
   * `bestCars`: the first `numCars / 2` of the sorted built cars
   * (`slice` truncates the half; it stops at the end of a shorter list).
   * The pool is highest first.
   */
  function BreedingPool(cars: seq<Option<Car>>, numCars: nat): (pool: seq<Car>)
    ensures var built := NonNull(cars);
      |pool| == (if numCars / 2 <= |built| then numCars / 2 else |built|)
    ensures SortedByFitness(pool)
  {
    var sorted := SortByFitness(NonNull(cars));
    SortSorted(NonNull(cars));
    var n := if numCars / 2 <= |sorted| then numCars / 2 else |sorted|;
    sorted[..n]
  }

  /** The breeding pool is empty exactly when fewer than two cars were asked for or none was built. */
  lemma BreedingPoolEmpty(cars: seq<Option<Car>>, numCars: nat)
    ensures BreedingPool(cars, numCars) == [] <==> numCars < 2 || NonNull(cars) == []
  {
  }

  /**
   * The breeding pool holds built cars only, each at most as often as it
   * was built.
   */
  lemma BreedingPoolMembers(cars: seq<Option<Car>>, numCars: nat)
    ensures var pool := BreedingPool(cars, numCars);
      && multiset(pool) <= multiset(NonNull(cars))
      && forall c :: c in pool ==> Some(c) in cars
  {
    var built := NonNull(cars);
    var sorted := SortByFitness(built);
    SortSorted(built);
    var pool := BreedingPool(cars, numCars);
    assert sorted == pool + sorted[|pool|..];
    assert multiset(sorted) == multiset(pool) + multiset(sorted[|pool|..]);
    forall c | c in pool ensures Some(c) in cars {
      assert c in multiset(built);
    }
  }

  /** In a list sorted highest first, no car after position n beats one before it. */
  lemma SortedSplit(sorted: seq<Car>, n: nat)
    requires SortedByFitness(sorted) && n <= |sorted|
    ensures forall c, d :: c in sorted[..n] && d in sorted[n..] ==> c.fitness >= d.fitness
  {
    forall c, d | c in sorted[..n] && d in sorted[n..] ensures c.fitness >= d.fitness {
      var i :| 0 <= i < n && sorted[..n][i] == c;
      var j :| 0 <= j < |sorted| - n && sorted[n..][j] == d;
      assert sorted[i] == c && sorted[n + j] == d;
    }
  }

  /** No built car left out of the breeding pool is fitter than a car in it. */
  lemma BreedingPoolIsBest(cars: seq<Option<Car>>, numCars: nat)
    ensures var pool := BreedingPool(cars, numCars);
      forall c, d :: c in pool && d in multiset(NonNull(cars)) - multiset(pool) ==> c.fitness >= d.fitness
  {
    var built := NonNull(cars);
    var sorted := SortByFitness(built);
    SortSorted(built);
    var pool := BreedingPool(cars, numCars);
    var rest := sorted[|pool|..];
    assert sorted == pool + rest;
    assert multiset(built) == multiset(pool) + multiset(rest);
    SortedSplit(sorted, |pool|);
    assert forall d :: d in multiset(built) - multiset(pool) ==> d in rest;
  }
}
