/**
 * The range sampler (valeur_en_fonction_de_plage) and the correlated amount
 * generator (generate_correlated_variable).
 *
 * A breakpoint table maps cumulative probabilities to outcomes. The source
 * sorts the table and returns the outcome of the first breakpoint strictly
 * above the draw, falling back to the last outcome. `Sample` states that on
 * the map itself; `Scan` is the sorted scan, and `SampleIsScan` shows the two
 * agree on every sorted listing of the table.
 */
module RangeSampler {
  import opened Common

  /** Some element of a non-empty set of reals is below all others. */
  lemma {:induction false} HasLeast(s: set<real>)
    requires s != {}
    ensures exists m :: m in s && forall x :: x in s ==> m <= x
  {
    assert (forall x :: x !in s) ==> s == {};
    var y :| y in s;
    if s != {y} {
      HasLeast(s - {y});
      var m :| m in s - {y} && forall x :: x in s - {y} ==> m <= x;
      var least := if y < m then y else m;
      forall x | x in s ensures least <= x {
        if x != y { assert x in s - {y}; }
      }
    } else {
      assert forall x :: x in s ==> y <= x;
    }
  }

  /** Some element of a non-empty set of reals is above all others. */
  lemma {:induction false} HasGreatest(s: set<real>)
    requires s != {}
    ensures exists m :: m in s && forall x :: x in s ==> x <= m
  {
    assert (forall x :: x !in s) ==> s == {};
    var y :| y in s;
    if s != {y} {
      HasGreatest(s - {y});
      var m :| m in s - {y} && forall x :: x in s - {y} ==> x <= m;
      var greatest := if m < y then y else m;
      forall x | x in s ensures x <= greatest {
        if x != y { assert x in s - {y}; }
      }
    } else {
      assert forall x :: x in s ==> x <= y;
    }
  }

  function Least(s: set<real>): (m: real)
    requires s != {}
    ensures m in s && forall x :: x in s ==> m <= x
  {
    HasLeast(s);
    var m :| m in s && forall x :: x in s ==> m <= x; m
  }

  function Greatest(s: set<real>): (m: real)
    requires s != {}
    ensures m in s && forall x :: x in s ==> x <= m
  {
    HasGreatest(s);
    var m :| m in s && forall x :: x in s ==> x <= m; m
  }

  /**
   * The breakpoint whose outcome the sampler returns for the draw v: the
   * smallest breakpoint strictly above v, or the largest breakpoint when
   * none is above v.
   */
  function Breakpoint(v: real, keys: set<real>): (k: real)
    requires keys != {}
    ensures k in keys
    ensures (exists b :: b in keys && v < b) ==> v < k && forall b :: b in keys && v < b ==> k <= b
    ensures (forall b :: b in keys ==> b <= v) ==> forall b :: b in keys ==> b <= k
  {
    var above := set b | b in keys && v < b;
    if above != {} then
      var k := Least(above);
      assert forall b :: b in keys && v < b ==> b in above;
      k
    else
      assert forall b :: b in keys ==> b <= v by {
        forall b | b in keys ensures b <= v {
          assert b !in above;
        }
      }
      Greatest(keys)
  }

  /**
   * valeur_en_fonction_de_plage: a draw outside [0, 1] yields the
   * out-of-interval message; an empty table fails on its last entry;
   * otherwise the outcome at `Breakpoint`.
   */
  function Sample<T>(v: real, table: map<real, T>): (r: Result<T>)
    ensures v < 0.0 || v > 1.0 ==> r == Err(OutOfInterval)
    ensures 0.0 <= v <= 1.0 && table == map[] ==> r == Err(IndexError)
    ensures 0.0 <= v <= 1.0 && table != map[] ==> r.Ok?
    ensures 0.0 <= v <= 1.0 && (exists b :: b in table && v < b) ==>
              exists b :: b in table && v < b && r == Ok(table[b]) &&
                          forall c :: c in table && v < c ==> b <= c
    ensures 0.0 <= v <= 1.0 && table != map[] && (forall b :: b in table ==> b <= v) ==>
              exists b :: b in table && r == Ok(table[b]) && forall c :: c in table ==> c <= b
  {
    if v < 0.0 || v > 1.0 then Err(OutOfInterval)
    else if table == map[] then Err(IndexError)
    else
      var k := Breakpoint(v, table.Keys);
      Ok(table[k])
  }

  /** The value table[b] of some breakpoint b. */
  ghost predicate IsOutcome<T>(x: T, table: map<real, T>)
  {
    exists b :: b in table && table[b] == x
  }

  /** A draw in [0, 1) on a non-empty table yields one of its outcomes. */
  lemma SampleIsOutcome<T>(v: Unit, table: map<real, T>)
    requires table != map[]
    ensures Sample(v, table).Ok? && IsOutcome(Sample(v, table).value, table)
  {
    if exists b :: b in table && v < b {
    } else {
      assert forall b :: b in table ==> b <= v;
    }
  }

  /** A listing of breakpoints in strictly ascending order, as sorted() yields it. */
  ghost predicate Ascending<T>(items: seq<(real, T)>)
  {
    forall i, j :: 0 <= i < j < |items| ==> items[i].0 < items[j].0
  }

  /** The listing holds exactly the entries of the table. */
  ghost predicate Lists<T>(items: seq<(real, T)>, table: map<real, T>)
  {
    && (forall i :: 0 <= i < |items| ==> items[i].0 in table && table[items[i].0] == items[i].1)
    && (forall b :: b in table ==> exists i :: 0 <= i < |items| && items[i].0 == b)
  }

  /** The source's loop over the sorted items: first outcome whose breakpoint exceeds v. */
  function Scan<T>(v: real, items: seq<(real, T)>): Option<T>
  {
    if items == [] then None
    else if v < items[0].0 then Some(items[0].1)
    else Scan(v, items[1..])
  }

  /** The body of valeur_en_fonction_de_plage over an explicit sorted listing. */
  function SampleSorted<T>(v: real, items: seq<(real, T)>): Result<T>
  {
    if v < 0.0 || v > 1.0 then Err(OutOfInterval)
    else match Scan(v, items)
      case Some(x) => Ok(x)
      case None => if items == [] then Err(IndexError) else Ok(items[|items| - 1].1)
  }

  /** The scan stops at the first breakpoint above v, if there is one. */
  lemma {:induction false} ScanFindsFirstAbove<T>(v: real, items: seq<(real, T)>)
    requires Ascending(items)
    ensures Scan(v, items).None? <==> forall i :: 0 <= i < |items| ==> items[i].0 <= v
    ensures Scan(v, items).Some? ==>
              exists i :: 0 <= i < |items| && v < items[i].0 && Scan(v, items) == Some(items[i].1) &&
                          forall j :: 0 <= j < i ==> items[j].0 <= v
  {
    if items != [] && !(v < items[0].0) {
      var rest := items[1..];
      assert Ascending(rest) by {
        forall i, j | 0 <= i < j < |rest| ensures rest[i].0 < rest[j].0 {
          assert rest[i] == items[i + 1] && rest[j] == items[j + 1];
        }
      }
      ScanFindsFirstAbove(v, rest);
      if Scan(v, rest).Some? {
        var i :| 0 <= i < |rest| && v < rest[i].0 && Scan(v, rest) == Some(rest[i].1) &&
                 forall j :: 0 <= j < i ==> rest[j].0 <= v;
        assert items[i + 1] == rest[i];
        forall j | 0 <= j < i + 1 ensures items[j].0 <= v {
          if j > 0 { assert items[j] == rest[j - 1]; }
        }
      } else {
        forall i | 0 <= i < |items| ensures items[i].0 <= v {
          if i > 0 { assert items[i] == rest[i - 1]; }
        }
      }
    }
  }

  /**
   * Sampling the table and scanning any ascending listing of it give the same
   * result: the map-level contract of `Sample` is the sorted scan.
   */
  lemma SampleIsScan<T>(v: real, items: seq<(real, T)>, table: map<real, T>)
    requires Ascending(items) && Lists(items, table)
    ensures Sample(v, table) == SampleSorted(v, items)
  {
    if items == [] {
      assert forall b :: b !in table;
      assert table == map[];
    } else if 0.0 <= v <= 1.0 {
      assert items[0].0 in table;
      ScanFindsFirstAbove(v, items);
      if Scan(v, items).Some? {
        ScanAgreesWhenFound(v, items, table);
      } else {
        ScanAgreesWhenNotFound(v, items, table);
      }
    }
  }

  lemma ScanAgreesWhenFound<T>(v: real, items: seq<(real, T)>, table: map<real, T>)
    requires Ascending(items) && Lists(items, table) && items != []
    requires exists i :: 0 <= i < |items| && v < items[i].0 && Scan(v, items) == Some(items[i].1) &&
                         forall j :: 0 <= j < i ==> items[j].0 <= v
    ensures table != map[] && Ok(table[Breakpoint(v, table.Keys)]) == Ok(Scan(v, items).value)
  {
    var i :| 0 <= i < |items| && v < items[i].0 && Scan(v, items) == Some(items[i].1) &&
             forall j :: 0 <= j < i ==> items[j].0 <= v;
    assert items[i].0 in table;
    var k := Breakpoint(v, table.Keys);
    var ik :| 0 <= ik < |items| && items[ik].0 == k;
    assert v < k;
    assert i <= ik;
    assert items[i].0 <= k;
    assert k <= items[i].0;
  }

  lemma ScanAgreesWhenNotFound<T>(v: real, items: seq<(real, T)>, table: map<real, T>)
    requires Ascending(items) && Lists(items, table) && items != []
    requires forall i :: 0 <= i < |items| ==> items[i].0 <= v
    ensures table != map[] && table[Breakpoint(v, table.Keys)] == items[|items| - 1].1
  {
    var last := |items| - 1;
    assert items[last].0 in table;
    var k := Breakpoint(v, table.Keys);
    var ik :| 0 <= ik < |items| && items[ik].0 == k;
    assert forall b :: b in table ==> b <= v;
    assert items[ik].0 <= items[last].0;
    assert items[last].0 <= k;
  }

  /** A larger draw never selects an earlier breakpoint. */
  lemma SampleMonotone(v1: real, v2: real, keys: set<real>)
    requires keys != {} && v1 <= v2
    ensures Breakpoint(v1, keys) <= Breakpoint(v2, keys)
  {
    var k1, k2 := Breakpoint(v1, keys), Breakpoint(v2, keys);
    if exists b :: b in keys && v2 < b {
      assert v1 < k2;
    }
  }

  /**
   * generate_correlated_variable: `p` stands for the value of the normal
   * distribution function at the correlated score, a number in [0, 1); the
   * result rescales it into [lo, hi].
   */
  function Correlated(p: Unit, lo: real, hi: real): (y: real)
    ensures lo <= hi ==> lo <= y <= hi
    ensures lo == hi ==> y == lo
  {
    var span := hi - lo;
    var scaled := p * span;
    if lo <= hi then
      ScaleBelow(p, span);
      scaled + lo
    else
      scaled + lo
  }

  lemma ScaleBelow(u: real, n: real)
    requires 0.0 <= u < 1.0 && n >= 0.0
    ensures 0.0 <= u * n <= n
  {
    assert u * n <= 1.0 * n;
  }
}
