/**
  The table of exchangeable particle pairs that `params::read_input` builds
  after the `input` file is read (src/params.cpp): for every pair of template
  particles `j < i` whose exchange symmetry is non-zero, the indices `j, i`
  are pushed onto `exchange_pairs` and the symmetry onto `exchange_values`.

  `particle::exchange_symmetry` is not part of this model; it is the
  parameter `sym`, called as `sym(ps[i], ps[j])` exactly as the loop calls
  `p1->exchange_symmetry(p2)`.
 */
module Exchange {
  import opened Input

  /** One recorded pair: the lower index, the higher index and their exchange symmetry. */
  datatype ExchangePair = ExchangePair(lo: nat, hi: nat, sign: int)

  /** The pairs `(j, i)` for `j < m` of row `i`, in increasing `j`: at most one per `j`. */
  function RowPairs(ps: seq<Particle>, sym: (Particle, Particle) -> int, i: nat, m: nat): (r: seq<ExchangePair>)
    requires m <= i < |ps|
    ensures |r| <= m
  {
    if m == 0 then []
    else
      var s := sym(ps[i], ps[m - 1]);
      RowPairs(ps, sym, i, m - 1) + (if s == 0 then [] else [ExchangePair(m - 1, i, s)])
  }

  /** The rows `0 .. n - 1` of the table, one after another. */
  function TablePairs(ps: seq<Particle>, sym: (Particle, Particle) -> int, n: nat): seq<ExchangePair>
    requires n <= |ps|
  {
    if n == 0 then [] else TablePairs(ps, sym, n - 1) + RowPairs(ps, sym, n - 1, n - 1)
  }

  /** The whole table of a template system. */
  function ExchangeTable(ps: seq<Particle>, sym: (Particle, Particle) -> int): seq<ExchangePair> {
    TablePairs(ps, sym, |ps|)
  }

  /** The first `n` rows hold at most one entry per pair `j < i < n`. */
  lemma {:induction false} TableSize(ps: seq<Particle>, sym: (Particle, Particle) -> int, n: nat)
    requires n <= |ps|
    ensures 2 * |TablePairs(ps, sym, n)| <= n * (n - 1)
  {
    if n > 0 {
      TableSize(ps, sym, n - 1);
      assert (n - 1) * (n - 2) + 2 * (n - 1) == n * (n - 1);
    }
  }

  /** The table has at most one entry per unordered pair of particles. */
  lemma ExchangeTableSize(ps: seq<Particle>, sym: (Particle, Particle) -> int)
    ensures 2 * |ExchangeTable(ps, sym)| <= |ps| * (|ps| - 1)
  {
    TableSize(ps, sym, |ps|);
  }

  /** `x` comes strictly before `y` when ordered by the higher index, then the lower. */
  predicate Before(x: ExchangePair, y: ExchangePair) {
    x.hi < y.hi || (x.hi == y.hi && x.lo < y.lo)
  }

  /** An entry names two distinct particles, lower index first, with a non-zero symmetry that `sym` gives them. */
  predicate Recorded(ps: seq<Particle>, sym: (Particle, Particle) -> int, e: ExchangePair) {
    e.lo < e.hi < |ps| && e.sign != 0 && e.sign == sym(ps[e.hi], ps[e.lo])
  }

  predicate Sorted(t: seq<ExchangePair>) {
    forall a, b :: 0 <= a < b < |t| ==> Before(t[a], t[b])
  }

  /** Row `i` holds pairs of row `i` only, each recorded correctly, in increasing lower index below `m`. */
  lemma {:induction false} RowSound(ps: seq<Particle>, sym: (Particle, Particle) -> int, i: nat, m: nat)
    requires m <= i < |ps|
    ensures var row := RowPairs(ps, sym, i, m);
      && (forall k :: 0 <= k < |row| ==> Recorded(ps, sym, row[k]) && row[k].hi == i && row[k].lo < m)
      && Sorted(row)
  {
    if m > 0 {
      RowSound(ps, sym, i, m - 1);
    }
  }

  /** Every entry of the first `n` rows is recorded correctly, lies below row `n`, and the entries are in order. */
  lemma {:induction false} TableSound(ps: seq<Particle>, sym: (Particle, Particle) -> int, n: nat)
    requires n <= |ps|
    ensures var t := TablePairs(ps, sym, n);
      && (forall k :: 0 <= k < |t| ==> Recorded(ps, sym, t[k]) && t[k].hi < n)
      && Sorted(t)
  {
    if n > 0 {
      TableSound(ps, sym, n - 1);
      RowSound(ps, sym, n - 1, n - 1);
    }
  }

  /** Every pair of row `i` below `m` with a non-zero symmetry is in the row. */
  lemma {:induction false} RowComplete(ps: seq<Particle>, sym: (Particle, Particle) -> int, i: nat, m: nat, j: nat)
    requires m <= i < |ps| && j < m && sym(ps[i], ps[j]) != 0
    ensures exists k :: 0 <= k < |RowPairs(ps, sym, i, m)| && RowPairs(ps, sym, i, m)[k] == ExchangePair(j, i, sym(ps[i], ps[j]))
  {
    var row := RowPairs(ps, sym, i, m - 1);
    if j < m - 1 {
      RowComplete(ps, sym, i, m - 1, j);
      var k :| 0 <= k < |row| && row[k] == ExchangePair(j, i, sym(ps[i], ps[j]));
      assert RowPairs(ps, sym, i, m)[k] == row[k];
    } else {
      assert RowPairs(ps, sym, i, m)[|row|] == ExchangePair(j, i, sym(ps[i], ps[j]));
    }
  }

  /** Every pair `j < i` below row `n` with a non-zero symmetry is in the table. */
  lemma {:induction false} TableComplete(ps: seq<Particle>, sym: (Particle, Particle) -> int, n: nat, j: nat, i: nat)
    requires n <= |ps| && j < i < n && sym(ps[i], ps[j]) != 0
    ensures exists k :: 0 <= k < |TablePairs(ps, sym, n)| && TablePairs(ps, sym, n)[k] == ExchangePair(j, i, sym(ps[i], ps[j]))
  {
    var prev := TablePairs(ps, sym, n - 1);
    if i < n - 1 {
      TableComplete(ps, sym, n - 1, j, i);
      var k :| 0 <= k < |prev| && prev[k] == ExchangePair(j, i, sym(ps[i], ps[j]));
      assert TablePairs(ps, sym, n)[k] == prev[k];
    } else {
      RowComplete(ps, sym, i, i, j);
      var row := RowPairs(ps, sym, i, i);
      var k :| 0 <= k < |row| && row[k] == ExchangePair(j, i, sym(ps[i], ps[j]));
      assert TablePairs(ps, sym, n)[|prev| + k] == row[k];
    }
  }

  /**
    The table lists exactly the pairs `j < i` of the template system whose
    exchange symmetry is non-zero, each once, ordered by `i` and then by `j`.
   */
  lemma ExchangeTableCorrect(ps: seq<Particle>, sym: (Particle, Particle) -> int)
    ensures var t := ExchangeTable(ps, sym);
      && (forall k :: 0 <= k < |t| ==> Recorded(ps, sym, t[k]))
      && Sorted(t)
      && (forall j, i :: 0 <= j < i < |ps| && sym(ps[i], ps[j]) != 0 ==>
            exists k :: 0 <= k < |t| && t[k] == ExchangePair(j, i, sym(ps[i], ps[j])))
      && (forall a, b :: 0 <= a < |t| && 0 <= b < |t| && t[a].lo == t[b].lo && t[a].hi == t[b].hi ==> a == b)
  {
    TableSound(ps, sym, |ps|);
    forall j, i | 0 <= j < i < |ps| && sym(ps[i], ps[j]) != 0
      ensures exists k :: 0 <= k < |ExchangeTable(ps, sym)| && ExchangeTable(ps, sym)[k] == ExchangePair(j, i, sym(ps[i], ps[j]))
    {
      TableComplete(ps, sym, |ps|, j, i);
      assert ExchangeTable(ps, sym) == TablePairs(ps, sym, |ps|);
    }
  }

  /** `exchange_pairs` as pushed: the lower and the higher index of each entry, in turn. */
  function FlatPairs(t: seq<ExchangePair>): (r: seq<int>)
    ensures |r| == 2 * |t|
  {
    if t == [] then [] else FlatPairs(t[..|t| - 1]) + [t[|t| - 1].lo, t[|t| - 1].hi]
  }

  /** `exchange_values` as pushed: the symmetry of each entry. */
  function Signs(t: seq<ExchangePair>): (r: seq<int>)
    ensures |r| == |t|
  {
    if t == [] then [] else Signs(t[..|t| - 1]) + [t[|t| - 1].sign]
  }

  /** Entry `k` of the table sits at positions `2k` and `2k + 1` of the indices and `k` of the values. */
  lemma {:induction false} FlatLayout(t: seq<ExchangePair>)
    ensures forall k :: 0 <= k < |t| ==>
      FlatPairs(t)[2 * k] == t[k].lo && FlatPairs(t)[2 * k + 1] == t[k].hi && Signs(t)[k] == t[k].sign
  {
    if t != [] {
      var prefix := t[..|t| - 1];
      FlatLayout(prefix);
      assert forall k :: 0 <= k < |prefix| ==> prefix[k] == t[k];
    }
  }

  /**
    The two vectors the loop leaves behind: twice as many indices as values;
    the `k`-th pair is two distinct particle indices, the lower first, whose
    symmetry is the `k`-th value and is non-zero; every exchangeable pair
    appears, and pairs are listed in increasing order of the higher index, then
    the lower.
   */
  lemma ExchangeVectorsWellFormed(ps: seq<Particle>, sym: (Particle, Particle) -> int)
    ensures var pairs, values := FlatPairs(ExchangeTable(ps, sym)), Signs(ExchangeTable(ps, sym));
      && |pairs| == 2 * |values|
      && (forall k :: 0 <= k < |values| ==>
            && 0 <= pairs[2 * k] < pairs[2 * k + 1] < |ps|
            && values[k] != 0
            && values[k] == sym(ps[pairs[2 * k + 1]], ps[pairs[2 * k]]))
      && (forall a, b :: 0 <= a < b < |values| ==>
            pairs[2 * a + 1] < pairs[2 * b + 1] || (pairs[2 * a + 1] == pairs[2 * b + 1] && pairs[2 * a] < pairs[2 * b]))
      && (forall j, i :: 0 <= j < i < |ps| && sym(ps[i], ps[j]) != 0 ==>
            exists k :: 0 <= k < |values| && pairs[2 * k] == j && pairs[2 * k + 1] == i && values[k] == sym(ps[i], ps[j]))
  {
    var t := ExchangeTable(ps, sym);
    ExchangeTableCorrect(ps, sym);
    FlatLayout(t);
    var pairs, values := FlatPairs(t), Signs(t);
    forall j, i | 0 <= j < i < |ps| && sym(ps[i], ps[j]) != 0
      ensures exists k :: 0 <= k < |values| && pairs[2 * k] == j && pairs[2 * k + 1] == i && values[k] == sym(ps[i], ps[j])
    {
      var k :| 0 <= k < |t| && t[k] == ExchangePair(j, i, sym(ps[i], ps[j]));
      assert pairs[2 * k] == j && pairs[2 * k + 1] == i && values[k] == sym(ps[i], ps[j]);
    }
  }
}
