/**
  The run parameters of DMCPP and the line-by-line reading of the `input` file
  (`params::read_input` in src/params.cpp), as pure functions.

  A line is already split into tokens. The conversions `std::stoi` and
  `std::stod` are abstracted as `Converters`: `None` stands for the exception
  they throw, which nothing in the program catches, so reading stops there.
 */
module Input {
  import opened Wrappers
  import opened Tokens

  /** A template particle: `particle name mass charge half_spins x1 x2 ...`. */
  datatype Particle = Particle(name: string, mass: real, charge: real, halfSpins: int, coords: seq<real>)

  /** An external potential, recorded with the arguments its constructor receives. */
  datatype Potential =
    | GridPotential(file: string)
    | HarmonicWell(coefficient: real)
    | AtomicPotential(charge: real, coords: seq<real>)

  /** `std::stoi` and `std::stod`; `None` is the exception. */
  datatype Converters = Converters(toInt: string -> Option<int>, toReal: string -> Option<real>)

  /** Why a line stops the reading: a number that does not convert, or a negative array length. */
  datatype LineError = BadNumber(token: string) | BadArrayLength(length: int)

  /** The parameters `read_input` may change (every static member of `params` but pid, np and the exchange lists). */
  datatype Config = Config(
    writeWavefunction: bool,
    exchangeMoves: bool,
    correctSeparations: bool,
    dimensions: int,
    targetPopulation: int,
    dmcIterations: int,
    maxPopRatio: real,
    minPopRatio: real,
    exchangeProb: real,
    tau: real,
    tauCRatio: real,
    preDiffusion: real,
    trialEnergy: real,
    cancelScheme: string,
    potentials: seq<Potential>,
    templateSystem: seq<Particle>)

  /**
    The defaults the program starts from: a positive dimensionality, walker
    count, iteration count and time step, population bounds on either side of
    the target, an exchange probability that is a probability, and no particles
    or potentials yet.
   */
  function Defaults(): (r: Config)
    ensures r.dimensions > 0 && r.targetPopulation > 0 && r.dmcIterations > 0
    ensures 0.0 < r.minPopRatio < 1.0 < r.maxPopRatio
    ensures 0.0 <= r.exchangeProb <= 1.0
    ensures r.tau > 0.0 && r.tauCRatio > 0.0 && r.preDiffusion >= 0.0
    ensures r.potentials == [] && r.templateSystem == []
  {
    Config(
      writeWavefunction := true,
      exchangeMoves := true,
      correctSeparations := false,
      dimensions := 3,
      targetPopulation := 1000,
      dmcIterations := 1000,
      maxPopRatio := 4.0,
      minPopRatio := 0.5,
      exchangeProb := 0.5,
      tau := 0.01,
      tauCRatio := 1.0,
      preDiffusion := 1.0,
      trialEnergy := 0.0,
      cancelScheme := "voronoi",
      potentials := [],
      templateSystem := [])
  }

  function Max0(n: int): nat {
    if n < 0 then 0 else n
  }

  /**
    C++ integer division of a non-negative divisor: the quotient is truncated
    toward zero (Dafny's own `/` rounds toward negative infinity for negative
    dividends).
   */
  function TruncDiv(a: int, b: int): (q: int)
    requires b > 0
    ensures 0 <= a ==> q * b <= a < q * b + b
    ensures a < 0 ==> q * b - b < a <= q * b
  {
    if a >= 0 then a / b else -((-a) / b)
  }

  /**
    A comment line: its first token starts with `!`, `#` or `//` (`rfind(p, 0) == 0`
    holds exactly when `p` is a prefix).
   */
  function IsComment(tag: string): (b: bool)
    ensures b <==> "!" <= tag || "#" <= tag || "//" <= tag
  {
    || (|tag| >= 1 && tag[0] == '!')
    || (|tag| >= 1 && tag[0] == '#')
    || (|tag| >= 2 && tag[0] == '/' && tag[1] == '/')
  }

  /** The tags the dispatch chain of `read_input` recognises, and `Unknown` for every other. */
  datatype Keyword =
    | DimensionsKey | WalkersKey | MaxPopRatioKey | MinPopRatioKey | IterationsKey | TauKey
    | TauCRatioKey | PreDiffusionKey | ParticleKey | GridPotentialKey | HarmonicWellKey
    | AtomicPotentialKey | NoWavefunctionKey | NoExchangeKey | ExchangeProbKey | CancelSchemeKey
    | SeperationCorrectionKey | Unknown

  /**
    The tag comparisons of the `else if` chain, in its order: a token is
    recognised only when it is exactly the text of the tag it is recognised as.
   */
  function KeywordOf(tag: string): (k: Keyword)
    ensures k != Unknown ==> TagName(k) == tag
  {
    if tag == "dimensions" then DimensionsKey
    else if tag == "walkers" then WalkersKey
    else if tag == "max_pop_ratio" then MaxPopRatioKey
    else if tag == "min_pop_ratio" then MinPopRatioKey
    else if tag == "iterations" then IterationsKey
    else if tag == "tau" then TauKey
    else if tag == "tau_c_ratio" then TauCRatioKey
    else if tag == "pre_diffusion" then PreDiffusionKey
    else if tag == "particle" then ParticleKey
    else if tag == "grid_potential" then GridPotentialKey
    else if tag == "harmonic_well" then HarmonicWellKey
    else if tag == "atomic_potential" then AtomicPotentialKey
    else if tag == "no_wavefunction" then NoWavefunctionKey
    else if tag == "no_exchange" then NoExchangeKey
    else if tag == "exchange_prob" then ExchangeProbKey
    else if tag == "cancel_scheme" then CancelSchemeKey
    else if tag == "seperation_correction" then SeperationCorrectionKey
    else Unknown
  }

  /** The text of each recognised tag. */
  function TagName(k: Keyword): string {
    match k
    case DimensionsKey => "dimensions"
    case WalkersKey => "walkers"
    case MaxPopRatioKey => "max_pop_ratio"
    case MinPopRatioKey => "min_pop_ratio"
    case IterationsKey => "iterations"
    case TauKey => "tau"
    case TauCRatioKey => "tau_c_ratio"
    case PreDiffusionKey => "pre_diffusion"
    case ParticleKey => "particle"
    case GridPotentialKey => "grid_potential"
    case HarmonicWellKey => "harmonic_well"
    case AtomicPotentialKey => "atomic_potential"
    case NoWavefunctionKey => "no_wavefunction"
    case NoExchangeKey => "no_exchange"
    case ExchangeProbKey => "exchange_prob"
    case CancelSchemeKey => "cancel_scheme"
    case SeperationCorrectionKey => "seperation_correction"
    case Unknown => ""
  }

  /** The keyword of a line's first token; blank and comment lines have none. */
  function LineKeyword(split: seq<string>): Keyword {
    if split == [] || IsComment(split[0]) then Unknown else KeywordOf(split[0])
  }

  /** Each tag is recognised as itself. */
  lemma KeywordOfTagName(k: Keyword)
    ensures k != Unknown ==> KeywordOf(TagName(k)) == k
  {
    var t := TagName(k);
    if t == "dimensions" {
    } else if t == "walkers" {
    } else if t == "max_pop_ratio" {
    } else if t == "min_pop_ratio" {
    } else if t == "iterations" {
    } else if t == "tau" {
    } else if t == "tau_c_ratio" {
    } else if t == "pre_diffusion" {
    } else if t == "particle" {
    } else if t == "grid_potential" {
    } else if t == "harmonic_well" {
    } else if t == "atomic_potential" {
    } else if t == "no_wavefunction" {
    } else if t == "no_exchange" {
    } else if t == "exchange_prob" {
    } else if t == "cancel_scheme" {
    } else if t == "seperation_correction" {
    }
  }

  /** Tags whose line converts a number or allocates an array, the only lines that can fail. */
  predicate CanFail(k: Keyword) {
    k in {DimensionsKey, WalkersKey, MaxPopRatioKey, MinPopRatioKey, IterationsKey, TauKey,
          TauCRatioKey, PreDiffusionKey, ParticleKey, HarmonicWellKey, AtomicPotentialKey, ExchangeProbKey}
  }

  /** Tags that append to the potential list. */
  predicate AddsPotential(k: Keyword) {
    k in {GridPotentialKey, HarmonicWellKey, AtomicPotentialKey}
  }

  /**
    Tokens a line tagged `k` must have for the reader not to index past its end:
    one argument after an argument tag, and the fixed fields plus one coordinate
    per dimension (at the dimensionality in force when the line is read) after
    `particle` and `atomic_potential`.
   */
  predicate HasArguments(k: Keyword, dimensions: int, split: seq<string>) {
    match k
    case ParticleKey => |split| >= 5 + Max0(dimensions)
    case AtomicPotentialKey => |split| >= 2 + Max0(dimensions)
    case NoWavefunctionKey => true
    case NoExchangeKey => true
    case SeperationCorrectionKey => true
    case Unknown => true
    case _ => |split| >= 2
  }

  predicate LineWellFormed(dimensions: int, split: seq<string>) {
    split == [] || IsComment(split[0]) || HasArguments(KeywordOf(split[0]), dimensions, split)
  }

  function IntAt(split: seq<string>, i: nat, conv: Converters): (r: Result<int, LineError>)
    requires i < |split|
    ensures r.Success? <==> conv.toInt(split[i]).Some?
    ensures r.Success? ==> conv.toInt(split[i]) == Some(r.value)
    ensures r.Failure? ==> r.error == BadNumber(split[i])
  {
    match conv.toInt(split[i])
    case Some(v) => Success(v)
    case None => Failure(BadNumber(split[i]))
  }

  function RealAt(split: seq<string>, i: nat, conv: Converters): (r: Result<real, LineError>)
    requires i < |split|
    ensures r.Success? <==> conv.toReal(split[i]).Some?
    ensures r.Success? ==> conv.toReal(split[i]) == Some(r.value)
    ensures r.Failure? ==> r.error == BadNumber(split[i])
  {
    match conv.toReal(split[i])
    case Some(x) => Success(x)
    case None => Failure(BadNumber(split[i]))
  }

  /** Every token of `split[from .. from + n]` converts to a real. */
  predicate RealsConvert(split: seq<string>, from: nat, n: nat, conv: Converters)
    requires from + n <= |split|
  {
    forall i :: from <= i < from + n ==> conv.toReal(split[i]).Some?
  }

  /** `split[i]` is the first token of `split[from .. from + n]` that does not convert. */
  predicate FirstBadReal(split: seq<string>, from: nat, n: nat, conv: Converters, i: nat)
    requires from + n <= |split|
  {
    && from <= i < from + n
    && conv.toReal(split[i]).None?
    && forall j :: from <= j < i ==> conv.toReal(split[j]).Some?
  }

  /**
    `n` reals from `split[from..]`, converted left to right: they all arrive
    exactly when every token converts, and otherwise the first token that does
    not is reported.
   */
  function RealsAt(split: seq<string>, from: nat, n: nat, conv: Converters): (r: Result<seq<real>, LineError>)
    requires from + n <= |split|
    ensures r.Success? <==> RealsConvert(split, from, n, conv)
    ensures r.Success? ==> |r.value| == n
    ensures r.Success? ==> forall i :: 0 <= i < n ==> conv.toReal(split[from + i]) == Some(r.value[i])
    ensures r.Failure? ==> exists i: nat :: FirstBadReal(split, from, n, conv, i) && r.error == BadNumber(split[i])
  {
    if n == 0 then Success([])
    else
      var xs :- RealsAt(split, from, n - 1, conv);
      var x :- RealAt(split, from + n - 1, conv);
      Success(xs + [x])
  }

  /** The conversions stop at the first coordinate that fails: later ones are never reached. */
  lemma {:induction false} RealsAtFirstFailure(split: seq<string>, from: nat, i: nat, n: nat, conv: Converters)
    requires i < n && from + n <= |split|
    requires RealsAt(split, from, i, conv).Success? && conv.toReal(split[from + i]).None?
    ensures RealsAt(split, from, n, conv) == Failure(BadNumber(split[from + i]))
    decreases n
  {
    if n > i + 1 {
      RealsAtFirstFailure(split, from, i, n - 1, conv);
    }
  }

  /**
    `p` is what the particle line `split` describes when `dimensions` is in
    force: one coordinate per dimension (none for a negative dimensionality).
   */
  predicate ParsedParticle(p: Particle, split: seq<string>, dimensions: int, conv: Converters) {
    && |p.coords| == Max0(dimensions)
    && 5 + |p.coords| <= |split|
    && p.name == split[1]
    && conv.toReal(split[2]) == Some(p.mass)
    && conv.toReal(split[3]) == Some(p.charge)
    && conv.toInt(split[4]) == Some(p.halfSpins)
    && forall i :: 0 <= i < |p.coords| ==> conv.toReal(split[5 + i]) == Some(p.coords[i])
  }

  /** Every field `parse_particle` converts does convert: mass, charge, spin count and coordinates. */
  predicate ParticleConverts(split: seq<string>, dimensions: int, conv: Converters)
    requires |split| >= 5 + Max0(dimensions)
  {
    && conv.toReal(split[2]).Some?
    && conv.toReal(split[3]).Some?
    && conv.toInt(split[4]).Some?
    && RealsConvert(split, 5, Max0(dimensions), conv)
  }

  /**
    `parse_particle`: one coordinate per dimension in force. It succeeds exactly
    when every field converts; otherwise the first field that does not, in the
    order mass, charge, spin count, coordinates, is reported.
   */
  function ParticleOf(split: seq<string>, dimensions: int, conv: Converters): (r: Result<Particle, LineError>)
    requires |split| >= 5 + Max0(dimensions)
    ensures r.Success? <==> ParticleConverts(split, dimensions, conv)
    ensures r.Success? ==> ParsedParticle(r.value, split, dimensions, conv)
    ensures conv.toReal(split[2]).None? ==> r == Failure(BadNumber(split[2]))
    ensures conv.toReal(split[2]).Some? && conv.toReal(split[3]).None? ==> r == Failure(BadNumber(split[3]))
    ensures conv.toReal(split[2]).Some? && conv.toReal(split[3]).Some? && conv.toInt(split[4]).None? ==>
      r == Failure(BadNumber(split[4]))
    ensures r.Failure? && conv.toReal(split[2]).Some? && conv.toReal(split[3]).Some? && conv.toInt(split[4]).Some? ==>
      exists i: nat :: FirstBadReal(split, 5, Max0(dimensions), conv, i) && r.error == BadNumber(split[i])
  {
    var mass :- RealAt(split, 2, conv);
    var charge :- RealAt(split, 3, conv);
    var halfSpins :- IntAt(split, 4, conv);
    var coords :- RealsAt(split, 5, Max0(dimensions), conv);
    Success(Particle(split[1], mass, charge, halfSpins, coords))
  }

  /** The tag of the line that adds a potential of this kind. */
  function PotentialKeyword(p: Potential): Keyword {
    match p
    case GridPotential(_) => GridPotentialKey
    case HarmonicWell(_) => HarmonicWellKey
    case AtomicPotential(_, _) => AtomicPotentialKey
  }

  /**
    The arguments of `p` are the ones on the line `split` when `dimensions` is in
    force: an atomic potential has one coordinate per dimension.
   */
  predicate PotentialArguments(p: Potential, split: seq<string>, dimensions: int, conv: Converters) {
    && |split| >= 2
    && match p
       case GridPotential(file) => file == split[1]
       case HarmonicWell(w) => conv.toReal(split[1]) == Some(w)
       case AtomicPotential(charge, coords) =>
         && conv.toReal(split[1]) == Some(charge)
         && |coords| == dimensions
         && 2 + |coords| <= |split|
         && forall i :: 0 <= i < |coords| ==> conv.toReal(split[2 + i]) == Some(coords[i])
  }

  /** `p` is what the potential line `split` describes. */
  predicate ParsedPotential(p: Potential, split: seq<string>, dimensions: int, conv: Converters) {
    PotentialKeyword(p) == LineKeyword(split) && PotentialArguments(p, split, dimensions, conv)
  }

  /** A particle line and its dimensionality determine the particle: all its fields, and its coordinates. */
  lemma ParsedParticleUnique(p: Particle, q: Particle, split: seq<string>, dimensions: int, conv: Converters)
    requires ParsedParticle(p, split, dimensions, conv) && ParsedParticle(q, split, dimensions, conv)
    ensures p == q
  {
  }

  /** Likewise a potential line and its dimensionality determine the potential. */
  lemma ParsedPotentialUnique(p: Potential, q: Potential, split: seq<string>, dimensions: int, conv: Converters)
    requires ParsedPotential(p, split, dimensions, conv) && ParsedPotential(q, split, dimensions, conv)
    ensures p == q
  {
  }

  /** Every step of `parse_atomic_potential` goes through: the charge, the allocation, the coordinates. */
  predicate AtomicConverts(split: seq<string>, dimensions: int, conv: Converters)
    requires |split| >= 2 + Max0(dimensions)
  {
    && conv.toReal(split[1]).Some?
    && dimensions >= 0
    && RealsConvert(split, 2, dimensions, conv)
  }

  /**
    `parse_atomic_potential`: the charge is converted first; then the coordinate
    array is allocated, which throws for a negative dimensionality; then the
    coordinates are converted. It succeeds exactly when all three go through, and
    otherwise reports the first that does not.
   */
  function AtomicOf(split: seq<string>, dimensions: int, conv: Converters): (r: Result<Potential, LineError>)
    requires |split| >= 2 + Max0(dimensions)
    ensures r.Success? <==> AtomicConverts(split, dimensions, conv)
    ensures r.Success? ==> PotentialArguments(r.value, split, dimensions, conv) && r.value.AtomicPotential?
    ensures r.Success? ==> |r.value.coords| == dimensions
    ensures conv.toReal(split[1]).None? ==> r == Failure(BadNumber(split[1]))
    ensures conv.toReal(split[1]).Some? && dimensions < 0 ==> r == Failure(BadArrayLength(dimensions))
    ensures r.Failure? && conv.toReal(split[1]).Some? && dimensions >= 0 ==>
      exists i: nat :: FirstBadReal(split, 2, dimensions, conv, i) && r.error == BadNumber(split[i])
  {
    var charge :- RealAt(split, 1, conv);
    if dimensions < 0 then Failure(BadArrayLength(dimensions))
    else
      var coords :- RealsAt(split, 2, dimensions, conv);
      Success(AtomicPotential(charge, coords))
  }

  /** What a line asks for, once its tag is known and its numbers are converted. */
  datatype Directive =
    | Skip
    | SetDimensions(int)
    | SetWalkers(int)
    | SetMaxPopRatio(real)
    | SetMinPopRatio(real)
    | SetIterations(int)
    | SetTau(real)
    | SetTauCRatio(real)
    | SetPreDiffusion(real)
    | AddParticle(particle: Particle)
    | AddPotential(potential: Potential)
    | ClearWavefunction
    | ClearExchange
    | SetExchangeProb(real)
    | SetCancelScheme(string)
    | SetSeparationCorrection

  /** The keyword a directive comes from (`Unknown` for a line that does nothing). */
  function DirectiveKeyword(d: Directive): Keyword {
    match d
    case Skip => Unknown
    case SetDimensions(_) => DimensionsKey
    case SetWalkers(_) => WalkersKey
    case SetMaxPopRatio(_) => MaxPopRatioKey
    case SetMinPopRatio(_) => MinPopRatioKey
    case SetIterations(_) => IterationsKey
    case SetTau(_) => TauKey
    case SetTauCRatio(_) => TauCRatioKey
    case SetPreDiffusion(_) => PreDiffusionKey
    case AddParticle(_) => ParticleKey
    case AddPotential(p) => PotentialKeyword(p)
    case ClearWavefunction => NoWavefunctionKey
    case ClearExchange => NoExchangeKey
    case SetExchangeProb(_) => ExchangeProbKey
    case SetCancelScheme(_) => CancelSchemeKey
    case SetSeparationCorrection => SeperationCorrectionKey
  }

  /**
    The conversions of one pass of the `getline` loop body: blank and comment
    lines are skipped, then the tag is dispatched through the `else if` chain.
   */
  function Decode(split: seq<string>, dimensions: int, conv: Converters): (r: Result<Directive, LineError>)
    requires LineWellFormed(dimensions, split)
    ensures r.Success? ==> DirectiveKeyword(r.value) == LineKeyword(split)
    ensures r.Failure? ==> CanFail(LineKeyword(split))
  {
    if split == [] || IsComment(split[0]) then Success(Skip)
    else DecodeTagged(KeywordOf(split[0]), split, dimensions, conv)
  }

  /**
    One branch of the chain: the conversions its tag asks for; an unknown tag
    falls off the end of the chain. A particle line reads one coordinate per
    dimension in force.
   */
  function DecodeTagged(k: Keyword, split: seq<string>, dimensions: int, conv: Converters): (r: Result<Directive, LineError>)
    requires split != [] && HasArguments(k, dimensions, split)
    ensures r.Success? ==> DirectiveKeyword(r.value) == k
    ensures r.Success? && r.value.AddParticle? ==>
      ParsedParticle(r.value.particle, split, dimensions, conv)
    ensures r.Success? && r.value.AddPotential? ==> PotentialArguments(r.value.potential, split, dimensions, conv)
    ensures r.Failure? ==> CanFail(k)
  {
    match k
    case DimensionsKey => (var n :- IntAt(split, 1, conv); Success(SetDimensions(n)))
    case WalkersKey => (var n :- IntAt(split, 1, conv); Success(SetWalkers(n)))
    case MaxPopRatioKey => (var x :- RealAt(split, 1, conv); Success(SetMaxPopRatio(x)))
    case MinPopRatioKey => (var x :- RealAt(split, 1, conv); Success(SetMinPopRatio(x)))
    case IterationsKey => (var n :- IntAt(split, 1, conv); Success(SetIterations(n)))
    case TauKey => (var x :- RealAt(split, 1, conv); Success(SetTau(x)))
    case TauCRatioKey => (var x :- RealAt(split, 1, conv); Success(SetTauCRatio(x)))
    case PreDiffusionKey => (var x :- RealAt(split, 1, conv); Success(SetPreDiffusion(x)))
    case ParticleKey => (var p :- ParticleOf(split, dimensions, conv); Success(AddParticle(p)))
    case GridPotentialKey => Success(AddPotential(GridPotential(split[1])))
    case HarmonicWellKey => (var x :- RealAt(split, 1, conv); Success(AddPotential(HarmonicWell(x))))
    case AtomicPotentialKey => (var p :- AtomicOf(split, dimensions, conv); Success(AddPotential(p)))
    case NoWavefunctionKey => Success(ClearWavefunction)
    case NoExchangeKey => Success(ClearExchange)
    case ExchangeProbKey => (var x :- RealAt(split, 1, conv); Success(SetExchangeProb(x)))
    case CancelSchemeKey => Success(SetCancelScheme(split[1]))
    case SeperationCorrectionKey => Success(SetSeparationCorrection)
    case Unknown => Success(Skip)
  }

  /**
    The assignments of the same pass: each directive writes one static member
    (the walker count is shared out among the `np` processes with C++ integer
    division), or appends to one list.
   */
  function Apply(c: Config, d: Directive, np: int): (r: Config)
    requires np >= 1
    ensures r.trialEnergy == c.trialEnergy
    ensures d.AddParticle? ==> r.templateSystem == c.templateSystem + [d.particle]
    ensures !d.AddParticle? ==> r.templateSystem == c.templateSystem
    ensures d.AddPotential? ==> r.potentials == c.potentials + [d.potential]
    ensures !d.AddPotential? ==> r.potentials == c.potentials
  {
    match d
    case Skip => c
    case SetDimensions(n) => c.(dimensions := n)
    case SetWalkers(n) => c.(targetPopulation := TruncDiv(n, np))
    case SetMaxPopRatio(x) => c.(maxPopRatio := x)
    case SetMinPopRatio(x) => c.(minPopRatio := x)
    case SetIterations(n) => c.(dmcIterations := n)
    case SetTau(x) => c.(tau := x)
    case SetTauCRatio(x) => c.(tauCRatio := x)
    case SetPreDiffusion(x) => c.(preDiffusion := x)
    case AddParticle(p) => c.(templateSystem := c.templateSystem + [p])
    case AddPotential(p) => c.(potentials := c.potentials + [p])
    case ClearWavefunction => c.(writeWavefunction := false)
    case ClearExchange => c.(exchangeMoves := false)
    case SetExchangeProb(x) => c.(exchangeProb := x)
    case SetCancelScheme(t) => c.(cancelScheme := t)
    case SetSeparationCorrection => c.(correctSeparations := true)
  }

  /** One line: in every branch of the chain the conversions come before the assignment. */
  function Step(c: Config, split: seq<string>, np: int, conv: Converters): Result<Config, LineError>
    requires np >= 1 && LineWellFormed(c.dimensions, split)
  {
    var d :- Decode(split, c.dimensions, conv);
    Success(Apply(c, d, np))
  }

  /**
    What one line can do: only a line whose tag converts a number can throw; a
    blank line, a comment or an unknown tag leaves the parameters as they were;
    no line changes the trial energy.
   */
  lemma StepOutcome(c: Config, split: seq<string>, np: int, conv: Converters)
    requires np >= 1 && LineWellFormed(c.dimensions, split)
    ensures Step(c, split, np, conv).Failure? ==> CanFail(LineKeyword(split))
    ensures LineKeyword(split) == Unknown ==> Step(c, split, np, conv) == Success(c)
    ensures Step(c, split, np, conv).Success? ==> Step(c, split, np, conv).value.trialEnergy == c.trialEnergy
  {
  }

  /** Where reading stopped: the index of the line and why. */
  datatype ReadError = ReadError(line: nat, cause: LineError)

  /**
    The end of reading: every line applied, or an escaped exception with the
    parameters as the lines before it left them.
   */
  datatype ReadOutcome = Completed(config: Config) | Aborted(error: ReadError, partial: Config)

  /** Every line is well formed at the dimensionality in force when it is reached. */
  predicate WellFormedInput(c: Config, lines: seq<seq<string>>, np: int, conv: Converters)
    requires np >= 1
    decreases |lines|, 0
  {
    || lines == []
    || (&& WellFormedInput(c, lines[..|lines| - 1], np, conv)
        && match Read(c, lines[..|lines| - 1], np, conv)
           case Completed(c') => LineWellFormed(c'.dimensions, lines[|lines| - 1])
           case Aborted(_, _) => true)
  }

  /** The whole `getline` loop: the lines in order, until the first that fails. */
  function Read(c: Config, lines: seq<seq<string>>, np: int, conv: Converters): (r: ReadOutcome)
    requires np >= 1 && WellFormedInput(c, lines, np, conv)
    ensures r.Aborted? ==> r.error.line < |lines|
    decreases |lines|, 1
  {
    if lines == [] then Completed(c)
    else
      match Read(c, lines[..|lines| - 1], np, conv)
      case Aborted(e, p) => Aborted(e, p)
      case Completed(c') =>
        match Step(c', lines[|lines| - 1], np, conv)
        case Success(c'') => Completed(c'')
        case Failure(e) => Aborted(ReadError(|lines| - 1, e), c')
  }
}
