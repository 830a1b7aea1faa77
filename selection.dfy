/** Neighbour selection: the nearest `NeighbourLimit` other rows, then the perception-radius filter. */
module Selection {
  import opened Config
  import opened Table

  /** Every index in `s` is a position of `d`. */
  predicate InRange(d: seq<real>, s: seq<nat>)
  {
    forall a :: 0 <= a < |s| ==> s[a] < |d|
  }

  predicate Distinct(s: seq<nat>)
  {
    forall a, b :: 0 <= a < b < |s| ==> s[a] != s[b]
  }

  /** `s` lists its indices by non-decreasing value in `d`. */
  predicate Ascending(d: seq<real>, s: seq<nat>)
    requires InRange(d, s)
  {
    forall a, b :: 0 <= a < b < |s| ==> d[s[a]] <= d[s[b]]
  }

  function MinNat(a: nat, b: nat): nat { if a <= b then a else b }

  /** How many rows below `n` are candidates: all of them except the boid's own. */
  function Candidates(self: int, n: nat): nat
  {
    if 0 <= self < n then n - 1 else n
  }

  /** Inserts `j` after every index whose value is at most `d[j]`. */
  function Insert(d: seq<real>, s: seq<nat>, j: nat): (r: seq<nat>)
    requires j < |d| && InRange(d, s)
    ensures |r| == |s| + 1 && InRange(d, r)
    ensures forall v :: v in r <==> v in s || v == j
    ensures Ascending(d, s) ==> Ascending(d, r)
    ensures Distinct(s) && j !in s ==> Distinct(r)
  {
    if s == [] then [j]
    else if d[j] < d[s[0]] then [j] + s
    else
      var rest := Insert(d, s[1..], j);
      HeadStaysFirst(d, s, j, rest);
      [s[0]] + rest
  }

  /** The head of `s` may stay in front of the insertion into the tail of `s`. */
  lemma HeadStaysFirst(d: seq<real>, s: seq<nat>, j: nat, rest: seq<nat>)
    requires j < |d| && InRange(d, s) && InRange(d, rest) && |s| > 0 && d[s[0]] <= d[j]
    requires forall v :: v in rest <==> v in s[1..] || v == j
    ensures Ascending(d, s) ==> forall b :: 0 <= b < |rest| ==> d[s[0]] <= d[rest[b]]
    ensures Distinct(s) && j !in s ==> s[0] !in rest
  {
    if Ascending(d, s) {
      forall b | 0 <= b < |rest|
        ensures d[s[0]] <= d[rest[b]]
      {
        assert rest[b] in rest;
        if rest[b] != j {
          var c :| 0 <= c < |s| - 1 && s[1..][c] == rest[b];
          assert s[c + 1] == rest[b];
        }
      }
    }
  }

  /** The nearest `NeighbourLimit` rows among rows `0 .. n-1` other than `self`, in ascending
      order of squared distance (`argsort(...)[:7]`; `argpartition` returns the same set up to ties). */
  function Nearest(d: seq<real>, self: int, n: nat): (r: seq<nat>)
    requires n <= |d|
    ensures InRange(d, r) && Distinct(r) && Ascending(d, r)
    ensures forall a :: 0 <= a < |r| ==> r[a] < n && r[a] != self
    ensures |r| == MinNat(NeighbourLimit, Candidates(self, n))
    ensures |r| < NeighbourLimit ==> forall j :: 0 <= j < n && j != self ==> j in r
  {
    if n == 0 then []
    else
      var prev := Nearest(d, self, n - 1);
      if n - 1 == self then prev
      else
        var grown := Insert(d, prev, n - 1);
        GrownCandidates(d, self, n, prev, grown);
        if |grown| > NeighbourLimit then grown[..NeighbourLimit] else grown
  }

  /** Adding row `n - 1` to the selection among rows below `n - 1`. */
  lemma GrownCandidates(d: seq<real>, self: int, n: nat, prev: seq<nat>, grown: seq<nat>)
    requires 0 < n <= |d| && n - 1 != self && InRange(d, prev)
    requires forall a :: 0 <= a < |prev| ==> prev[a] < n - 1 && prev[a] != self
    requires forall v :: v in grown <==> v in prev || v == n - 1
    requires |prev| < NeighbourLimit ==> forall j :: 0 <= j < n - 1 && j != self ==> j in prev
    ensures n - 1 !in prev
    ensures forall a :: 0 <= a < |grown| ==> grown[a] < n && grown[a] != self
    ensures |prev| < NeighbourLimit ==> forall j :: 0 <= j < n && j != self ==> j in grown
  {
    forall a | 0 <= a < |grown|
      ensures grown[a] < n && grown[a] != self
    {
      assert grown[a] in grown;
    }
  }

  /** The step of NearestIsBottom that drops the last of `NeighbourLimit + 1` ascending rows. */
  lemma TruncatedBottom(d: seq<real>, prev: seq<nat>, grown: seq<nat>, m: nat, j: nat)
    requires InRange(d, prev) && InRange(d, grown) && m < |d| && j < |d|
    requires |grown| == NeighbourLimit + 1
    requires forall v :: v in grown <==> v in prev || v == m
    requires Ascending(d, grown) && Distinct(grown)
    requires j !in grown[..NeighbourLimit]
    requires j in grown || forall b :: 0 <= b < |prev| ==> d[prev[b]] <= d[j]
    ensures forall a :: 0 <= a < NeighbourLimit ==> d[grown[a]] <= d[j]
  {
    var last := grown[NeighbourLimit];
    if j in grown {
      var c :| 0 <= c < |grown| && grown[c] == j;
    } else {
      forall a | 0 <= a < NeighbourLimit
        ensures d[grown[a]] <= d[j]
      {
        assert grown[a] in grown && last in grown;
        if last in prev {
          var c :| 0 <= c < |prev| && prev[c] == last;
        } else {
          assert grown[a] in prev;
          var c :| 0 <= c < |prev| && prev[c] == grown[a];
        }
      }
    }
  }

  /** A candidate `j` left out of the selection is at least as far as every selected row. */
  lemma {:induction false} NearestIsBottomAt(d: seq<real>, self: int, n: nat, j: nat)
    requires n <= |d| && j < n && j != self && j !in Nearest(d, self, n)
    ensures forall a :: 0 <= a < |Nearest(d, self, n)| ==> d[Nearest(d, self, n)[a]] <= d[j]
  {
    var prev := Nearest(d, self, n - 1);
    if n - 1 == self {
      NearestIsBottomAt(d, self, n - 1, j);
    } else {
      var grown := Insert(d, prev, n - 1);
      GrownCandidates(d, self, n, prev, grown);
      if |grown| > NeighbourLimit {
        if j !in grown {
          NearestIsBottomAt(d, self, n - 1, j);
        }
        TruncatedBottom(d, prev, grown, n - 1, j);
      }
    }
  }

  /** No candidate left out of the selection is strictly nearer than a selected row. */
  lemma NearestIsBottom(d: seq<real>, self: int, n: nat)
    requires n <= |d|
    ensures forall j :: 0 <= j < n && j != self && j !in Nearest(d, self, n) ==>
              forall a :: 0 <= a < |Nearest(d, self, n)| ==> d[Nearest(d, self, n)[a]] <= d[j]
  {
    forall j | 0 <= j < n && j != self && j !in Nearest(d, self, n)
      ensures forall a :: 0 <= a < |Nearest(d, self, n)| ==> d[Nearest(d, self, n)[a]] <= d[j]
    {
      NearestIsBottomAt(d, self, n, j);
    }
  }

  /** The rows strictly inside the perception radius, in the order given (`distances < 12 * BOID_SIZE`). */
  function Perceived(d: seq<real>, s: seq<nat>): (r: seq<nat>)
    requires InRange(d, s)
    ensures InRange(d, r) && |r| <= |s|
    ensures forall v :: v in r <==> v in s && d[v] < PerceptionRadius2
  {
    if s == [] then []
    else
      var rest := Perceived(d, s[1..]);
      if d[s[0]] < PerceptionRadius2 then [s[0]] + rest else rest
  }

  /** The filter never repeats a row. */
  lemma {:induction false} PerceivedDistinct(d: seq<real>, s: seq<nat>)
    requires InRange(d, s) && Distinct(s)
    ensures Distinct(Perceived(d, s))
  {
    if s != [] {
      PerceivedDistinct(d, s[1..]);
      var rest := Perceived(d, s[1..]);
      if d[s[0]] < PerceptionRadius2 {
        var r := [s[0]] + rest;
        assert s[0] !in s[1..];
        assert s[0] !in rest;
        forall a, b | 0 <= a < b < |r|
          ensures r[a] != r[b]
        {
          if a == 0 {
            assert r[b] in rest;
          } else {
            assert r[a] == rest[a - 1] && r[b] == rest[b - 1];
          }
        }
      }
    }
  }

  /** Rows all at or beyond the radius are all dropped. */
  lemma {:induction false} PerceivedDropsOutside(d: seq<real>, s: seq<nat>)
    requires InRange(d, s)
    requires forall a :: 0 <= a < |s| ==> d[s[a]] >= PerceptionRadius2
    ensures Perceived(d, s) == []
  {
    if s != [] {
      PerceivedDropsOutside(d, s[1..]);
    }
  }

  /** On an ascending selection the radius filter keeps a prefix, so its first row is the selection's first. */
  lemma {:induction false} PerceivedIsPrefix(d: seq<real>, s: seq<nat>)
    requires InRange(d, s) && Ascending(d, s)
    ensures Perceived(d, s) == s[..|Perceived(d, s)|]
  {
    if s != [] {
      var rest := Perceived(d, s[1..]);
      if d[s[0]] < PerceptionRadius2 {
        PerceivedIsPrefix(d, s[1..]);
        assert rest == s[1..][..|rest|];
        assert [s[0]] + s[1..][..|rest|] == s[..|rest| + 1];
      } else {
        PerceivedDropsOutside(d, s[1..]);
      }
    }
  }

  /** The filter keeps the given order: an ascending selection stays ascending. */
  lemma PerceivedAscending(d: seq<real>, s: seq<nat>)
    requires InRange(d, s) && Ascending(d, s)
    ensures Ascending(d, Perceived(d, s))
  {
    PerceivedIsPrefix(d, s);
  }

  /** When every row of `s` is inside the radius the filter keeps them all. */
  lemma {:induction false} PerceivedKeepsInside(d: seq<real>, s: seq<nat>)
    requires InRange(d, s)
    requires forall a :: 0 <= a < |s| ==> d[s[a]] < PerceptionRadius2
    ensures Perceived(d, s) == s
  {
    if s != [] {
      PerceivedKeepsInside(d, s[1..]);
    }
  }

  /** `np.argmin`: the position of the first smallest value. */
  function ArgMin(d: seq<real>, s: seq<nat>): (m: nat)
    requires InRange(d, s) && |s| > 0
    ensures m < |s|
    ensures forall a :: 0 <= a < |s| ==> d[s[m]] <= d[s[a]]
    ensures forall a :: 0 <= a < m ==> d[s[a]] > d[s[m]]
  {
    if |s| == 1 then 0
    else
      var m := ArgMin(d, s[1..]);
      if d[s[0]] <= d[s[1 + m]] then 0 else 1 + m
  }

  /** A subsequence of rows other than `self` holds no `self` either. */
  lemma AvoidsSelf(r: seq<nat>, s: seq<nat>, self: int)
    requires forall v :: v in r ==> v in s
    requires forall a :: 0 <= a < |s| ==> s[a] != self
    ensures forall a :: 0 <= a < |r| ==> r[a] != self
  {
    forall a | 0 <= a < |r|
      ensures r[a] != self
    {
      assert r[a] in s;
    }
  }

  /** The boid's neighbours: of the nearest rows other than its own, those strictly inside the perception radius. */
  function Neighbours(t: seq<Row>, self: nat, x: real, y: real): (nb: seq<nat>)
    requires self < |t|
    ensures RowsIn(t, nb) && Distinct(nb) && |nb| <= NeighbourLimit
    ensures forall a :: 0 <= a < |nb| ==> nb[a] != self
    ensures forall j :: j in nb <==>
              j in Nearest(Distances2(t, x, y), self, |t|) && Dist2(t[j], x, y) < PerceptionRadius2
  {
    var d := Distances2(t, x, y);
    var s := Nearest(d, self, |t|);
    PerceivedDistinct(d, s);
    AvoidsSelf(Perceived(d, s), s, self);
    Perceived(d, s)
  }
}
