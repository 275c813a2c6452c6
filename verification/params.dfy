/**
  The `params` class of DMCPP (src/params.cpp): the static run parameters,
  updated in place by `read_input` line by line, and the exchange table built
  after the last line. Each method is proved against the functions of `Input`
  and `Exchange`.
 */
module Params {
  import opened Wrappers
  import opened Tokens
  import opened Input
  import opened InputFacts
  import opened Exchange

  /** The lines of the file, each split on whitespace as `split_whitespace` does. */
  function Tokenise(lines: seq<string>): (r: seq<seq<string>>)
    ensures |r| == |lines|
    ensures forall k :: 0 <= k < |lines| ==> r[k] == SplitWhitespace(lines[k])
  {
    seq(|lines|, k requires 0 <= k < |lines| => SplitWhitespace(lines[k]))
  }

  /** `FlatPairs` grows by one entry's two indices as the loop pushes them. */
  lemma FlatPairsPush(t: seq<ExchangePair>, e: ExchangePair)
    ensures FlatPairs(t + [e]) == FlatPairs(t) + [e.lo, e.hi]
    ensures Signs(t + [e]) == Signs(t) + [e.sign]
  {
    assert (t + [e])[..|t|] == t;
  }

  /** A prefix of a well-formed input is well formed, and a read that stops within it stops there. */
  lemma ReadPrefix(c: Config, tokens: seq<seq<string>>, n: nat, np: int, conv: Converters)
    requires np >= 1 && n <= |tokens| && WellFormedInput(c, tokens, np, conv)
    ensures WellFormedInput(c, tokens[..n], np, conv)
    ensures Read(c, tokens[..n], np, conv).Aborted? ==> Read(c, tokens, np, conv) == Read(c, tokens[..n], np, conv)
  {
    assert tokens == tokens[..n] + tokens[n..];
    ReadConcat(c, tokens[..n], tokens[n..], np, conv);
  }

  /** Reading one more line, after the lines before it completed. */
  lemma ReadNext(c: Config, tokens: seq<seq<string>>, k: nat, np: int, conv: Converters)
    requires np >= 1 && k < |tokens| && WellFormedInput(c, tokens[..k + 1], np, conv)
    requires WellFormedInput(c, tokens[..k], np, conv) && Read(c, tokens[..k], np, conv).Completed?
    ensures LineWellFormed(Read(c, tokens[..k], np, conv).config.dimensions, tokens[k])
    ensures Read(c, tokens[..k + 1], np, conv) ==
      match Step(Read(c, tokens[..k], np, conv).config, tokens[k], np, conv)
      case Success(c') => Completed(c')
      case Failure(e) => Aborted(ReadError(k, e), Read(c, tokens[..k], np, conv).config)
  {
    assert tokens[..k + 1][..k] == tokens[..k];
    assert tokens[..k + 1][k] == tokens[k];
  }

  /** One pass of the inner loop: row `i` grows by the pair of `j`, if any, and so do the two vectors. */
  lemma PushRowStep(ps: seq<Particle>, sym: (Particle, Particle) -> int, i: nat, j: nat,
                    table: seq<ExchangePair>, t: seq<ExchangePair>)
    requires j < i < |ps| && t == table + RowPairs(ps, sym, i, j)
    ensures var s := sym(ps[i], ps[j]);
      && (s != 0 ==>
            && t + [ExchangePair(j, i, s)] == table + RowPairs(ps, sym, i, j + 1)
            && FlatPairs(t + [ExchangePair(j, i, s)]) == FlatPairs(t) + [j, i]
            && Signs(t + [ExchangePair(j, i, s)]) == Signs(t) + [s])
      && (s == 0 ==> t == table + RowPairs(ps, sym, i, j + 1))
  {
    var s := sym(ps[i], ps[j]);
    if s != 0 {
      FlatPairsPush(t, ExchangePair(j, i, s));
    }
  }

  /**
    The inner loop of the exchange-table loop for particle `i`: push each
    earlier particle `j` whose symmetry with it is non-zero, in increasing `j`.
    It pushes onto the vectors it is given rather than onto the fields of
    `Params`, so that the loop's reasoning stays within its own two sequences;
    `BuildExchangeTable` appends them to the fields once.
   */
  method PushRow(ps: seq<Particle>, sym: (Particle, Particle) -> int, i: nat,
                 pairs: seq<int>, values: seq<int>, ghost table: seq<ExchangePair>)
    returns (pairs': seq<int>, values': seq<int>, ghost table': seq<ExchangePair>)
    requires i < |ps| && pairs == FlatPairs(table) && values == Signs(table)
    ensures table' == table + RowPairs(ps, sym, i, i)
    ensures pairs' == FlatPairs(table') && values' == Signs(table')
  {
    pairs', values', table' := pairs, values, table;
    var j := 0;
    while j < i
      invariant 0 <= j <= i
      invariant table' == table + RowPairs(ps, sym, i, j)
      invariant pairs' == FlatPairs(table') && values' == Signs(table')
    {
      var s := sym(ps[i], ps[j]);
      PushRowStep(ps, sym, i, j, table, table');
      if s != 0 {
        table' := table' + [ExchangePair(j, i, s)];
        pairs' := pairs' + [j, i];
        values' := values' + [s];
      }
      j := j + 1;
    }
  }

  class Params {
    var writeWavefunction: bool
    var exchangeMoves: bool
    var correctSeparations: bool
    var pid: int
    var np: int
    var dimensions: int
    var targetPopulation: int
    var dmcIterations: int
    var maxPopRatio: real
    var minPopRatio: real
    var exchangeProb: real
    var tau: real
    var tauCRatio: real
    var preDiffusion: real
    var trialEnergy: real
    var cancelScheme: string
    var potentials: seq<Potential>
    var templateSystem: seq<Particle>
    var exchangePairs: seq<int>
    var exchangeValues: seq<int>

    /** The parameters `read_input` reads, as one value. */
    function State(): Config
      reads this
    {
      Config(writeWavefunction, exchangeMoves, correctSeparations, dimensions, targetPopulation,
             dmcIterations, maxPopRatio, minPopRatio, exchangeProb, tau, tauCRatio, preDiffusion,
             trialEnergy, cancelScheme, potentials, templateSystem)
    }

    /** The static initialisers: one process of rank 0, the defaults, empty lists. */
    constructor ()
      ensures State() == Defaults()
      ensures pid == 0 && np == 1
      ensures exchangePairs == [] && exchangeValues == []
    {
      writeWavefunction := true;
      exchangeMoves := true;
      correctSeparations := false;
      pid := 0;
      np := 1;
      dimensions := 3;
      targetPopulation := 1000;
      dmcIterations := 1000;
      maxPopRatio := 4.0;
      minPopRatio := 0.5;
      exchangeProb := 0.5;
      tau := 0.01;
      tauCRatio := 1.0;
      preDiffusion := 1.0;
      trialEnergy := 0.0;
      cancelScheme := "voronoi";
      potentials := [];
      templateSystem := [];
      exchangePairs := [];
      exchangeValues := [];
    }

    /** Record the rank and the process count that MPI reports. */
    method SetProcesses(rank: int, size: int)
      requires 0 <= rank < size
      modifies this`pid, this`np
      ensures pid == rank && np == size
    {
      pid := rank;
      np := size;
    }

    /**
      `parse_particle`: the name, the mass, the charge, the spin count and one
      coordinate per dimension in force, converted left to right; the particle is
      appended only when every conversion succeeds.
     */
    method ParseParticle(split: seq<string>, conv: Converters) returns (failure: Option<LineError>)
      requires |split| >= 5 + Max0(dimensions)
      modifies this`templateSystem
      ensures match ParticleOf(split, dimensions, conv)
        case Success(p) => failure.None? && templateSystem == old(templateSystem) + [p]
        case Failure(e) => failure == Some(e) && templateSystem == old(templateSystem)
    {
      var mass := RealAt(split, 2, conv);
      if mass.Failure? {
        return Some(mass.error);
      }
      var charge := RealAt(split, 3, conv);
      if charge.Failure? {
        return Some(charge.error);
      }
      var halfSpins := IntAt(split, 4, conv);
      if halfSpins.Failure? {
        return Some(halfSpins.error);
      }
      var coords: seq<real> := [];
      var i := 0;
      while i < dimensions
        invariant 0 <= i <= Max0(dimensions)
        invariant RealsAt(split, 5, i, conv) == Success(coords)
      {
        var x := RealAt(split, 5 + i, conv);
        if x.Failure? {
          RealsAtFirstFailure(split, 5, i, Max0(dimensions), conv);
          return Some(x.error);
        }
        coords := coords + [x.value];
        i := i + 1;
      }
      templateSystem := templateSystem + [Particle(split[1], mass.value, charge.value, halfSpins.value, coords)];
      failure := None;
    }

    /**
      `parse_atomic_potential`: the charge, then the coordinate array of
      `dimensions` entries (whose allocation throws for a negative length), then
      the coordinates; the potential is appended only when all of these succeed.
     */
    method ParseAtomicPotential(split: seq<string>, conv: Converters) returns (failure: Option<LineError>)
      requires |split| >= 2 + Max0(dimensions)
      modifies this`potentials
      ensures match AtomicOf(split, dimensions, conv)
        case Success(p) => failure.None? && potentials == old(potentials) + [p]
        case Failure(e) => failure == Some(e) && potentials == old(potentials)
    {
      var charge := RealAt(split, 1, conv);
      if charge.Failure? {
        return Some(charge.error);
      }
      if dimensions < 0 {
        return Some(BadArrayLength(dimensions));
      }
      var coords: seq<real> := [];
      var i := 0;
      while i < dimensions
        invariant 0 <= i <= dimensions
        invariant RealsAt(split, 2, i, conv) == Success(coords)
      {
        var x := RealAt(split, 2 + i, conv);
        if x.Failure? {
          RealsAtFirstFailure(split, 2, i, dimensions, conv);
          return Some(x.error);
        }
        coords := coords + [x.value];
        i := i + 1;
      }
      potentials := potentials + [AtomicPotential(charge.value, coords)];
      failure := None;
    }

    /**
      One branch of the `else if` chain of `read_input`, for a line whose tag is
      `k`: convert, then assign or append; a failed conversion changes nothing.
      The chain is one statement in the program; here its branches are grouped
      into the methods below only so that each proof, with its own narrow
      `modifies` frame, stays small. The grouping has no counterpart in the
      program.
     */
    method ApplyTagged(k: Keyword, split: seq<string>, conv: Converters) returns (failure: Option<LineError>)
      requires np >= 1 && split != [] && HasArguments(k, dimensions, split)
      modifies this
      ensures pid == old(pid) && np == old(np)
      ensures exchangePairs == old(exchangePairs) && exchangeValues == old(exchangeValues)
      ensures match DecodeTagged(k, split, old(dimensions), conv)
        case Success(d) => failure.None? && State() == Apply(old(State()), d, np)
        case Failure(e) => failure == Some(e) && State() == old(State())
    {
      if k in {DimensionsKey, WalkersKey, IterationsKey} {
        failure := ApplyInteger(k, split, conv);
      } else if k in {MaxPopRatioKey, MinPopRatioKey, ExchangeProbKey} {
        failure := ApplyRatio(k, split, conv);
      } else if k in {TauKey, TauCRatioKey, PreDiffusionKey} {
        failure := ApplyTimeStep(k, split, conv);
      } else if k in {ParticleKey, GridPotentialKey, HarmonicWellKey, AtomicPotentialKey} {
        failure := ApplyAppend(k, split, conv);
      } else {
        failure := ApplyFixed(k, split, conv);
      }
    }

    /** The branches that store a converted integer. */
    method ApplyInteger(k: Keyword, split: seq<string>, conv: Converters) returns (failure: Option<LineError>)
      requires np >= 1 && k in {DimensionsKey, WalkersKey, IterationsKey} && |split| >= 2
      modifies this`dimensions, this`targetPopulation, this`dmcIterations
      ensures match DecodeTagged(k, split, old(dimensions), conv)
        case Success(d) => failure.None? && State() == Apply(old(State()), d, np)
        case Failure(e) => failure == Some(e) && State() == old(State())
    {
      var n := IntAt(split, 1, conv);
      if n.Failure? {
        return Some(n.error);
      }
      failure := None;
      match k
      case DimensionsKey => dimensions := n.value;
      case WalkersKey => targetPopulation := TruncDiv(n.value, np);
      case IterationsKey => dmcIterations := n.value;
    }

    /** The branches that store a converted population ratio or exchange probability. */
    method ApplyRatio(k: Keyword, split: seq<string>, conv: Converters) returns (failure: Option<LineError>)
      requires np >= 1 && |split| >= 2 && k in {MaxPopRatioKey, MinPopRatioKey, ExchangeProbKey}
      modifies this`maxPopRatio, this`minPopRatio, this`exchangeProb
      ensures match DecodeTagged(k, split, old(dimensions), conv)
        case Success(d) => failure.None? && State() == Apply(old(State()), d, np)
        case Failure(e) => failure == Some(e) && State() == old(State())
    {
      var x := RealAt(split, 1, conv);
      if x.Failure? {
        return Some(x.error);
      }
      failure := None;
      match k
      case MaxPopRatioKey => maxPopRatio := x.value;
      case MinPopRatioKey => minPopRatio := x.value;
      case ExchangeProbKey => exchangeProb := x.value;
    }

    /** The branches that store a converted time step, its ratio, or the pre-diffusion time. */
    method ApplyTimeStep(k: Keyword, split: seq<string>, conv: Converters) returns (failure: Option<LineError>)
      requires np >= 1 && |split| >= 2 && k in {TauKey, TauCRatioKey, PreDiffusionKey}
      modifies this`tau, this`tauCRatio, this`preDiffusion
      ensures match DecodeTagged(k, split, old(dimensions), conv)
        case Success(d) => failure.None? && State() == Apply(old(State()), d, np)
        case Failure(e) => failure == Some(e) && State() == old(State())
    {
      var x := RealAt(split, 1, conv);
      if x.Failure? {
        return Some(x.error);
      }
      failure := None;
      match k
      case TauKey => tau := x.value;
      case TauCRatioKey => tauCRatio := x.value;
      case PreDiffusionKey => preDiffusion := x.value;
    }

    /** The branches that append a particle or a potential. */
    method ApplyAppend(k: Keyword, split: seq<string>, conv: Converters) returns (failure: Option<LineError>)
      requires np >= 1 && split != [] && HasArguments(k, dimensions, split)
      requires k in {ParticleKey, GridPotentialKey, HarmonicWellKey, AtomicPotentialKey}
      modifies this`templateSystem, this`potentials
      ensures match DecodeTagged(k, split, old(dimensions), conv)
        case Success(d) => failure.None? && State() == Apply(old(State()), d, np)
        case Failure(e) => failure == Some(e) && State() == old(State())
    {
      failure := None;
      match k
      case ParticleKey =>
        failure := ParseParticle(split, conv);
      case GridPotentialKey =>
        potentials := potentials + [GridPotential(split[1])];
      case HarmonicWellKey =>
        var x := RealAt(split, 1, conv);
        if x.Failure? {
          return Some(x.error);
        }
        potentials := potentials + [HarmonicWell(x.value)];
      case AtomicPotentialKey =>
        failure := ParseAtomicPotential(split, conv);
    }

    /** The branches that convert nothing, and the end of the chain. */
    method ApplyFixed(k: Keyword, split: seq<string>, conv: Converters) returns (failure: Option<LineError>)
      requires np >= 1 && split != [] && HasArguments(k, dimensions, split)
      requires k in {NoWavefunctionKey, NoExchangeKey, CancelSchemeKey, SeperationCorrectionKey, Unknown}
      modifies this`writeWavefunction, this`exchangeMoves, this`cancelScheme, this`correctSeparations
      ensures match DecodeTagged(k, split, old(dimensions), conv)
        case Success(d) => failure.None? && State() == Apply(old(State()), d, np)
        case Failure(e) => failure == Some(e) && State() == old(State())
    {
      failure := None;
      match k
      case NoWavefunctionKey => writeWavefunction := false;
      case NoExchangeKey => exchangeMoves := false;
      case CancelSchemeKey => cancelScheme := split[1];
      case SeperationCorrectionKey => correctSeparations := true;
      case Unknown =>
    }

    /** One pass of the `getline` loop body: skip blank and comment lines, else dispatch on the tag. */
    method ApplyLine(split: seq<string>, conv: Converters) returns (failure: Option<LineError>)
      requires np >= 1 && LineWellFormed(dimensions, split)
      modifies this
      ensures pid == old(pid) && np == old(np)
      ensures exchangePairs == old(exchangePairs) && exchangeValues == old(exchangeValues)
      ensures match Step(old(State()), split, np, conv)
        case Success(c) => failure.None? && State() == c
        case Failure(e) => failure == Some(e) && State() == old(State())
    {
      if split == [] || IsComment(split[0]) {
        return None;
      }
      failure := ApplyTagged(KeywordOf(split[0]), split, conv);
    }

    /**
      The exchange-table loop: for each template particle `i` and each earlier
      `j`, push `j, i` and their symmetry when it is non-zero.
     */
    method BuildExchangeTable(sym: (Particle, Particle) -> int)
      modifies this`exchangePairs, this`exchangeValues
      ensures exchangePairs == old(exchangePairs) + FlatPairs(ExchangeTable(templateSystem, sym))
      ensures exchangeValues == old(exchangeValues) + Signs(ExchangeTable(templateSystem, sym))
    {
      var ps := templateSystem;
      var pairs: seq<int>, values: seq<int> := [], [];
      ghost var table: seq<ExchangePair> := [];
      var i := 0;
      while i < |ps|
        invariant 0 <= i <= |ps|
        invariant table == TablePairs(ps, sym, i)
        invariant pairs == FlatPairs(table) && values == Signs(table)
        invariant exchangePairs == old(exchangePairs) && exchangeValues == old(exchangeValues)
      {
        pairs, values, table := PushRow(ps, sym, i, pairs, values, table);
        i := i + 1;
      }
      exchangePairs, exchangeValues := exchangePairs + pairs, exchangeValues + values;
    }
    /**
      The `getline` loop of `read_input`: every line in order, split on
      whitespace and applied to the parameters, until one throws. A line that
      throws leaves the parameters as the lines before it set them.
     */
    method ReadLines(lines: seq<string>, conv: Converters) returns (error: Option<ReadError>)
      requires np >= 1 && WellFormedInput(State(), Tokenise(lines), np, conv)
      modifies this
      ensures pid == old(pid) && np == old(np)
      ensures exchangePairs == old(exchangePairs) && exchangeValues == old(exchangeValues)
      ensures match Read(old(State()), Tokenise(lines), np, conv)
        case Completed(c) => error.None? && State() == c
        case Aborted(e, p) => error == Some(e) && State() == p
    {
      ghost var tokens := Tokenise(lines);
      ghost var start := State();
      var k := 0;
      while k < |lines|
        invariant 0 <= k <= |lines|
        invariant np == old(np) && pid == old(pid)
        invariant exchangePairs == old(exchangePairs) && exchangeValues == old(exchangeValues)
        invariant WellFormedInput(start, tokens[..k], np, conv)
        invariant Read(start, tokens[..k], np, conv) == Completed(State())
      {
        var split := SplitWhitespace(lines[k]);
        ReadPrefix(start, tokens, k + 1, np, conv);
        ReadNext(start, tokens, k, np, conv);
        var failure := ApplyLine(split, conv);
        if failure.Some? {
          return Some(ReadError(k, failure.value));
        }
        k := k + 1;
      }
      assert tokens[..k] == tokens;
      error := None;
    }

    /**
      `read_input`: the lines of the file, then, when none of them throws, the
      exchange table of the template system read is appended.
     */
    method ReadInput(lines: seq<string>, conv: Converters, sym: (Particle, Particle) -> int) returns (error: Option<ReadError>)
      requires np >= 1 && WellFormedInput(State(), Tokenise(lines), np, conv)
      modifies this
      ensures pid == old(pid) && np == old(np)
      ensures match Read(old(State()), Tokenise(lines), np, conv)
        case Completed(c) =>
          && error.None?
          && State() == c
          && exchangePairs == old(exchangePairs) + FlatPairs(ExchangeTable(c.templateSystem, sym))
          && exchangeValues == old(exchangeValues) + Signs(ExchangeTable(c.templateSystem, sym))
        case Aborted(e, p) =>
          && error == Some(e)
          && State() == p
          && exchangePairs == old(exchangePairs) && exchangeValues == old(exchangeValues)
    {
      error := ReadLines(lines, conv);
      if error.None? {
        BuildExchangeTable(sym);
      }
    }
  }
}
