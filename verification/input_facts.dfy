/**
  What reading the `input` file guarantees: lines compose one after another,
  ignored lines change nothing, the last line of a setting wins, particles and
  potentials are appended in file order, and reading stops at the first line
  whose conversion fails.
 */
module InputFacts {
  import opened Wrappers
  import opened Input

  /** Error line numbers moved by `offset`, for lines read after `offset` others. */
  function Shift(r: ReadOutcome, offset: nat): ReadOutcome {
    match r
    case Completed(c) => Completed(c)
    case Aborted(ReadError(k, e), p) => Aborted(ReadError(k + offset, e), p)
  }

  /**
    Reading `a + b` is reading `a`, then reading `b` from where `a` left off;
    and `a + b` is well formed exactly when `a` is and `b` is from there.
   */
  lemma {:induction false} ReadConcat(c: Config, a: seq<seq<string>>, b: seq<seq<string>>, np: int, conv: Converters)
    requires np >= 1
    ensures WellFormedInput(c, a + b, np, conv) <==>
      && WellFormedInput(c, a, np, conv)
      && (Read(c, a, np, conv).Completed? ==> WellFormedInput(Read(c, a, np, conv).config, b, np, conv))
    ensures WellFormedInput(c, a + b, np, conv) ==>
      Read(c, a + b, np, conv) ==
        match Read(c, a, np, conv)
        case Completed(c') => Shift(Read(c', b, np, conv), |a|)
        case Aborted(e, p) => Aborted(e, p)
    decreases |b|
  {
    if b == [] {
      assert a + b == a;
    } else {
      var b', x := b[..|b| - 1], b[|b| - 1];
      assert (a + b)[..|a + b| - 1] == a + b';
      assert (a + b)[|a + b| - 1] == x;
      ReadConcat(c, a, b', np, conv);
      if WellFormedInput(c, a, np, conv) {
        match Read(c, a, np, conv)
        case Aborted(_, _) =>
          assert WellFormedInput(c, a + b, np, conv) <==> WellFormedInput(c, a + b', np, conv);
        case Completed(c') =>
          assert WellFormedInput(c', b, np, conv) <==>
            && WellFormedInput(c', b', np, conv)
            && (Read(c', b', np, conv).Completed? ==> LineWellFormed(Read(c', b', np, conv).config.dimensions, x));
      }
    }
  }

  /** A line read on its own. */
  lemma ReadOne(c: Config, line: seq<string>, np: int, conv: Converters)
    requires np >= 1
    ensures WellFormedInput(c, [line], np, conv) <==> LineWellFormed(c.dimensions, line)
    ensures LineWellFormed(c.dimensions, line) ==>
      Read(c, [line], np, conv) ==
        match Step(c, line, np, conv)
        case Success(c') => Completed(c')
        case Failure(e) => Aborted(ReadError(0, e), c)
  {
    assert [line][..0] == [];
  }

  /** A blank line, a comment line, or a line whose tag the chain does not know. */
  predicate Ignored(split: seq<string>) {
    LineKeyword(split) == Unknown
  }

  /** Two outcomes that differ at most in the line number of the error. */
  predicate SameEffect(r: ReadOutcome, s: ReadOutcome) {
    match r
    case Completed(c) => s == Completed(c)
    case Aborted(e, p) => s.Aborted? && s.error.cause == e.cause && s.partial == p
  }

  /**
    Inserting a blank line, a comment or a line with an unknown tag anywhere in
    the input leaves every parameter and list as it was.
   */
  lemma IgnoredLineChangesNothing(c: Config, a: seq<seq<string>>, line: seq<string>, b: seq<seq<string>>, np: int, conv: Converters)
    requires np >= 1 && Ignored(line)
    ensures WellFormedInput(c, a + [line] + b, np, conv) <==> WellFormedInput(c, a + b, np, conv)
    ensures WellFormedInput(c, a + b, np, conv) ==>
      SameEffect(Read(c, a + [line] + b, np, conv), Read(c, a + b, np, conv))
  {
    ReadConcat(c, a, [line], np, conv);
    ReadConcat(c, a + [line], b, np, conv);
    ReadConcat(c, a, b, np, conv);
    if WellFormedInput(c, a, np, conv) && Read(c, a, np, conv).Completed? {
      var c' := Read(c, a, np, conv).config;
      StepOutcome(c', line, np, conv);
      ReadOne(c', line, np, conv);
    }
  }

  /** The settings a single line overwrites, one per tag. */
  datatype Setting =
    | Dimensions | TargetPopulation | MaxPopRatio | MinPopRatio | DmcIterations
    | Tau | TauCRatio | PreDiffusion | ExchangeProb | CancelScheme
    | WriteWavefunction | ExchangeMoves | CorrectSeparations

  datatype Value = IntValue(n: int) | RealValue(x: real) | TextValue(text: string) | FlagValue(flag: bool)

  /** The tag of the line that overwrites each setting. */
  function KeyOf(s: Setting): Keyword {
    match s
    case Dimensions => DimensionsKey
    case TargetPopulation => WalkersKey
    case MaxPopRatio => MaxPopRatioKey
    case MinPopRatio => MinPopRatioKey
    case DmcIterations => IterationsKey
    case Tau => TauKey
    case TauCRatio => TauCRatioKey
    case PreDiffusion => PreDiffusionKey
    case ExchangeProb => ExchangeProbKey
    case CancelScheme => CancelSchemeKey
    case WriteWavefunction => NoWavefunctionKey
    case ExchangeMoves => NoExchangeKey
    case CorrectSeparations => SeperationCorrectionKey
  }

  function Get(c: Config, s: Setting): Value {
    match s
    case Dimensions => IntValue(c.dimensions)
    case TargetPopulation => IntValue(c.targetPopulation)
    case MaxPopRatio => RealValue(c.maxPopRatio)
    case MinPopRatio => RealValue(c.minPopRatio)
    case DmcIterations => IntValue(c.dmcIterations)
    case Tau => RealValue(c.tau)
    case TauCRatio => RealValue(c.tauCRatio)
    case PreDiffusion => RealValue(c.preDiffusion)
    case ExchangeProb => RealValue(c.exchangeProb)
    case CancelScheme => TextValue(c.cancelScheme)
    case WriteWavefunction => FlagValue(c.writeWavefunction)
    case ExchangeMoves => FlagValue(c.exchangeMoves)
    case CorrectSeparations => FlagValue(c.correctSeparations)
  }

  function IntArgument(split: seq<string>, conv: Converters): Option<Value> {
    if |split| < 2 then None
    else match conv.toInt(split[1])
      case Some(n) => Some(IntValue(n))
      case None => None
  }

  function RealArgument(split: seq<string>, conv: Converters): Option<Value> {
    if |split| < 2 then None
    else match conv.toReal(split[1])
      case Some(x) => Some(RealValue(x))
      case None => None
  }

  /**
    Reference table of what a line tagged `KeyOf(s)` stores in `s`: the converted
    argument, the argument divided among the processes for `walkers`, the text
    itself for `cancel_scheme`, a constant for the three flags; `None` when the
    conversion fails.
   */
  function LineValue(s: Setting, split: seq<string>, np: int, conv: Converters): Option<Value>
    requires np >= 1
  {
    match s
    case Dimensions => IntArgument(split, conv)
    case TargetPopulation =>
      (match IntArgument(split, conv)
       case Some(IntValue(n)) => Some(IntValue(TruncDiv(n, np)))
       case _ => None)
    case DmcIterations => IntArgument(split, conv)
    case CancelScheme => if |split| < 2 then None else Some(TextValue(split[1]))
    case WriteWavefunction => Some(FlagValue(false))
    case ExchangeMoves => Some(FlagValue(false))
    case CorrectSeparations => Some(FlagValue(true))
    case _ => RealArgument(split, conv)
  }

  /** The branch of the chain for `s`'s tag, followed by its assignment. */
  lemma DecodeSetting(c: Config, split: seq<string>, np: int, conv: Converters, s: Setting)
    requires np >= 1 && split != [] && HasArguments(KeyOf(s), c.dimensions, split)
    ensures DecodeTagged(KeyOf(s), split, c.dimensions, conv).Success? <==> LineValue(s, split, np, conv).Some?
    ensures DecodeTagged(KeyOf(s), split, c.dimensions, conv).Success? ==>
      LineValue(s, split, np, conv) == Some(Get(Apply(c, DecodeTagged(KeyOf(s), split, c.dimensions, conv).value, np), s))
  {
    match s
    case Dimensions =>
    case TargetPopulation =>
    case MaxPopRatio =>
    case MinPopRatio =>
    case DmcIterations =>
    case Tau =>
    case TauCRatio =>
    case PreDiffusion =>
    case ExchangeProb =>
    case CancelScheme =>
    case WriteWavefunction =>
    case ExchangeMoves =>
    case CorrectSeparations =>
  }

  /**
    A line tagged for `s` stores its value in `s`, and fails exactly when that
    value does not convert.
   */
  lemma StepSettingTagged(c: Config, split: seq<string>, np: int, conv: Converters, s: Setting)
    requires np >= 1 && LineWellFormed(c.dimensions, split) && LineKeyword(split) == KeyOf(s)
    ensures Step(c, split, np, conv).Success? <==> LineValue(s, split, np, conv).Some?
    ensures Step(c, split, np, conv).Success? ==>
      LineValue(s, split, np, conv) == Some(Get(Step(c, split, np, conv).value, s))
  {
    assert Decode(split, c.dimensions, conv) == DecodeTagged(KeyOf(s), split, c.dimensions, conv);
    DecodeSetting(c, split, np, conv, s);
  }

  /** The tags whose line appends to a list. */
  predicate AppendKey(k: Keyword) {
    k in {ParticleKey, GridPotentialKey, HarmonicWellKey, AtomicPotentialKey}
  }

  /**
    Reference table of the conversions an appending branch makes: every field of
    a particle, the coefficient of a harmonic well, the charge, allocation and
    coordinates of an atomic potential; a grid potential converts nothing.
   */
  predicate AppendConverts(k: Keyword, split: seq<string>, dimensions: int, conv: Converters)
    requires AppendKey(k) && split != [] && HasArguments(k, dimensions, split)
  {
    match k
    case ParticleKey => ParticleConverts(split, dimensions, conv)
    case HarmonicWellKey => conv.toReal(split[1]).Some?
    case AtomicPotentialKey => AtomicConverts(split, dimensions, conv)
    case _ => true
  }

  /**
    A particle or potential line appends exactly when every conversion of its
    branch goes through. When it throws, the error is the one `parse_particle`
    or `parse_atomic_potential` reports (the first field that fails), or the
    coefficient of a harmonic well.
   */
  lemma DecodeAppend(split: seq<string>, dimensions: int, conv: Converters, k: Keyword)
    requires AppendKey(k) && split != [] && HasArguments(k, dimensions, split)
    ensures DecodeTagged(k, split, dimensions, conv).Success? <==> AppendConverts(k, split, dimensions, conv)
    ensures var r := DecodeTagged(k, split, dimensions, conv);
      && (r.Failure? && k == ParticleKey ==> ParticleOf(split, dimensions, conv) == Failure(r.error))
      && (r.Failure? && k == HarmonicWellKey ==> r.error == BadNumber(split[1]))
      && (r.Failure? && k == AtomicPotentialKey ==> AtomicOf(split, dimensions, conv) == Failure(r.error))
  {
    match k
    case ParticleKey =>
    case GridPotentialKey =>
    case HarmonicWellKey =>
    case AtomicPotentialKey =>
  }

  /**
    Through the whole line (comment check and dispatch): a particle or potential
    line, read at the dimensionality in force, goes through exactly when every
    conversion of its branch does.
   */
  lemma StepAppendTagged(c: Config, split: seq<string>, np: int, conv: Converters)
    requires np >= 1 && LineWellFormed(c.dimensions, split) && AppendKey(LineKeyword(split))
    ensures Step(c, split, np, conv).Success? <==> AppendConverts(LineKeyword(split), split, c.dimensions, conv)
  {
    assert Decode(split, c.dimensions, conv) == DecodeTagged(LineKeyword(split), split, c.dimensions, conv);
    DecodeAppend(split, c.dimensions, conv, LineKeyword(split));
  }

  /** Each setting changes only by a directive of its own tag. */
  lemma ApplyFrame(c: Config, d: Directive, np: int)
    requires np >= 1
    ensures forall s :: KeyOf(s) != DirectiveKeyword(d) ==> Get(Apply(c, d, np), s) == Get(c, s)
  {
    forall s | KeyOf(s) != DirectiveKeyword(d)
      ensures Get(Apply(c, d, np), s) == Get(c, s)
    {
      match s
      case Dimensions =>
      case TargetPopulation =>
      case MaxPopRatio =>
      case MinPopRatio =>
      case DmcIterations =>
      case Tau =>
      case TauCRatio =>
      case PreDiffusion =>
      case ExchangeProb =>
      case CancelScheme =>
      case WriteWavefunction =>
      case ExchangeMoves =>
      case CorrectSeparations =>
    }
  }

  /** A line leaves every setting of another tag, and the trial energy, as it was. */
  lemma StepFrame(c: Config, split: seq<string>, np: int, conv: Converters)
    requires np >= 1 && LineWellFormed(c.dimensions, split)
    requires Step(c, split, np, conv).Success?
    ensures forall s :: KeyOf(s) != LineKeyword(split) ==> Get(Step(c, split, np, conv).value, s) == Get(c, s)
    ensures Step(c, split, np, conv).value.trialEnergy == c.trialEnergy
  {
    ApplyFrame(c, Decode(split, c.dimensions, conv).value, np);
  }

  /** No line of the input sets the trial energy: it keeps its starting value. */
  lemma {:induction false} ReadKeepsTrialEnergy(c: Config, lines: seq<seq<string>>, np: int, conv: Converters)
    requires np >= 1 && WellFormedInput(c, lines, np, conv)
    ensures Read(c, lines, np, conv).Completed? ==> Read(c, lines, np, conv).config.trialEnergy == c.trialEnergy
    ensures Read(c, lines, np, conv).Aborted? ==> Read(c, lines, np, conv).partial.trialEnergy == c.trialEnergy
    decreases |lines|
  {
    if lines != [] {
      var prefix := lines[..|lines| - 1];
      ReadKeepsTrialEnergy(c, prefix, np, conv);
      if Read(c, prefix, np, conv).Completed? {
        var c' := Read(c, prefix, np, conv).config;
        if Step(c', lines[|lines| - 1], np, conv).Success? {
          StepFrame(c', lines[|lines| - 1], np, conv);
        }
      }
    }
  }

  /** Index of the last line carrying `tag`, if any. */
  function LastTagged(lines: seq<seq<string>>, k: Keyword): (r: Option<nat>)
    ensures r.Some? ==> r.value < |lines| && LineKeyword(lines[r.value]) == k
    ensures r.Some? ==> forall i :: r.value < i < |lines| ==> LineKeyword(lines[i]) != k
    ensures r.None? ==> forall i :: 0 <= i < |lines| ==> LineKeyword(lines[i]) != k
  {
    if lines == [] then None
    else if LineKeyword(lines[|lines| - 1]) == k then Some(|lines| - 1)
    else
      var prefix := lines[..|lines| - 1];
      assert forall i :: 0 <= i < |prefix| ==> prefix[i] == lines[i];
      LastTagged(prefix, k)
  }

  /**
    After a complete read, each setting holds the value of the last line that
    carries its tag, or the value it started with when no line does.
   */
  lemma {:induction false} LastSettingWins(c: Config, lines: seq<seq<string>>, np: int, conv: Converters, s: Setting)
    requires np >= 1 && WellFormedInput(c, lines, np, conv) && Read(c, lines, np, conv).Completed?
    ensures match LastTagged(lines, KeyOf(s))
      case None => Get(Read(c, lines, np, conv).config, s) == Get(c, s)
      case Some(k) => LineValue(s, lines[k], np, conv) == Some(Get(Read(c, lines, np, conv).config, s))
    decreases |lines|
  {
    if lines != [] {
      var prefix, last := lines[..|lines| - 1], lines[|lines| - 1];
      LastSettingWins(c, prefix, np, conv, s);
      var c' := Read(c, prefix, np, conv).config;
      if LineKeyword(last) == KeyOf(s) {
        StepSettingTagged(c', last, np, conv, s);
      } else {
        StepFrame(c', last, np, conv);
        match LastTagged(prefix, KeyOf(s))
        case None =>
        case Some(k) => assert lines[k] == prefix[k];
      }
    }
  }

  /** A line that sets a parameter, as opposed to one that appends to a list. */
  predicate SettingLine(split: seq<string>) {
    LineKeyword(split) !in {ParticleKey, GridPotentialKey, HarmonicWellKey, AtomicPotentialKey, Unknown}
  }

  /** Only `particle` and `atomic_potential` lines read the dimensionality. */
  lemma DecodeIgnoresDimensions(split: seq<string>, d1: int, d2: int, conv: Converters)
    requires LineKeyword(split) != ParticleKey && LineKeyword(split) != AtomicPotentialKey
    requires LineWellFormed(d1, split)
    ensures LineWellFormed(d2, split) && Decode(split, d1, conv) == Decode(split, d2, conv)
  {
  }

  /** Applying a setting directive to its own result changes nothing more. */
  lemma ApplyTwice(c: Config, d: Directive, np: int)
    requires np >= 1 && !d.AddParticle? && !d.AddPotential?
    ensures Apply(Apply(c, d, np), d, np) == Apply(c, d, np)
  {
  }

  /** A setting line applied to its own result changes nothing more. */
  lemma StepRepeat(c: Config, line: seq<string>, np: int, conv: Converters)
    requires np >= 1 && SettingLine(line) && LineWellFormed(c.dimensions, line)
    requires Step(c, line, np, conv).Success?
    ensures var c' := Step(c, line, np, conv).value;
      LineWellFormed(c'.dimensions, line) && Step(c', line, np, conv) == Success(c')
  {
    var d := Decode(line, c.dimensions, conv).value;
    var c' := Apply(c, d, np);
    DecodeIgnoresDimensions(line, c.dimensions, c'.dimensions, conv);
    ApplyTwice(c, d, np);
  }

  /** Reading a setting line twice has the effect of reading it once (the flags included). */
  lemma {:induction false} RepeatedSettingLine(c: Config, a: seq<seq<string>>, line: seq<string>, b: seq<seq<string>>, np: int, conv: Converters)
    requires np >= 1 && SettingLine(line)
    ensures WellFormedInput(c, a + [line, line] + b, np, conv) <==> WellFormedInput(c, a + [line] + b, np, conv)
    ensures WellFormedInput(c, a + [line] + b, np, conv) ==>
      SameEffect(Read(c, a + [line, line] + b, np, conv), Read(c, a + [line] + b, np, conv))
  {
    var once := a + [line];
    assert a + [line, line] + b == (once + [line]) + b;
    assert a + [line] + b == once + b;
    ReadConcat(c, once + [line], b, np, conv);
    ReadConcat(c, once, b, np, conv);
    RepeatedLineAtEnd(c, a, line, np, conv);
  }

  lemma RepeatedLineAtEnd(c: Config, a: seq<seq<string>>, line: seq<string>, np: int, conv: Converters)
    requires np >= 1 && SettingLine(line)
    ensures WellFormedInput(c, a + [line] + [line], np, conv) <==> WellFormedInput(c, a + [line], np, conv)
    ensures WellFormedInput(c, a + [line], np, conv) ==>
      Read(c, a + [line] + [line], np, conv) == Read(c, a + [line], np, conv)
  {
    ReadConcat(c, a, [line], np, conv);
    ReadConcat(c, a + [line], [line], np, conv);
    if WellFormedInput(c, a + [line], np, conv) && Read(c, a + [line], np, conv).Completed? {
      var c' := Read(c, a, np, conv).config;
      ReadOne(c', line, np, conv);
      var c'' := Read(c, a + [line], np, conv).config;
      assert Step(c', line, np, conv) == Success(c'');
      StepRepeat(c', line, np, conv);
      ReadOne(c'', line, np, conv);
    }
  }

  /** A line that appends to a list, with the dimensionality in force when it is read. */
  datatype ListLine = ListLine(split: seq<string>, dimensions: int)

  /**
    The particle lines the loop reaches, in file order, each with the
    dimensionality in force when it is read.
   */
  function ParticleLines(c: Config, lines: seq<seq<string>>, np: int, conv: Converters): seq<ListLine>
    requires np >= 1 && WellFormedInput(c, lines, np, conv)
    decreases |lines|
  {
    if lines == [] then []
    else
      var prefix, last := lines[..|lines| - 1], lines[|lines| - 1];
      ParticleLines(c, prefix, np, conv)
        + (if Read(c, prefix, np, conv).Completed? && LineKeyword(last) == ParticleKey
           then [ListLine(last, Read(c, prefix, np, conv).config.dimensions)]
           else [])
  }

  /** Likewise the potential lines the loop reaches. */
  function PotentialLines(c: Config, lines: seq<seq<string>>, np: int, conv: Converters): seq<ListLine>
    requires np >= 1 && WellFormedInput(c, lines, np, conv)
    decreases |lines|
  {
    if lines == [] then []
    else
      var prefix, last := lines[..|lines| - 1], lines[|lines| - 1];
      PotentialLines(c, prefix, np, conv)
        + (if Read(c, prefix, np, conv).Completed? && AddsPotential(LineKeyword(last))
           then [ListLine(last, Read(c, prefix, np, conv).config.dimensions)]
           else [])
  }

  /**
    What one line does to the two lists: a particle line appends the particle it
    describes, with one coordinate per dimension in force; a potential line
    appends the potential it describes, an atomic one with one coordinate per
    dimension; any other line leaves them alone.
   */
  lemma StepLists(c: Config, split: seq<string>, np: int, conv: Converters)
    requires np >= 1 && LineWellFormed(c.dimensions, split) && Step(c, split, np, conv).Success?
    ensures var r := Step(c, split, np, conv).value;
      && (LineKeyword(split) == ParticleKey ==>
            |r.templateSystem| == |c.templateSystem| + 1
            && r.templateSystem[..|c.templateSystem|] == c.templateSystem
            && ParsedParticle(r.templateSystem[|c.templateSystem|], split, c.dimensions, conv))
      && (LineKeyword(split) != ParticleKey ==> r.templateSystem == c.templateSystem)
      && (AddsPotential(LineKeyword(split)) ==>
            |r.potentials| == |c.potentials| + 1
            && r.potentials[..|c.potentials|] == c.potentials
            && ParsedPotential(r.potentials[|c.potentials|], split, c.dimensions, conv))
      && (!AddsPotential(LineKeyword(split)) ==> r.potentials == c.potentials)
  {
    var d := Decode(split, c.dimensions, conv).value;
    if LineKeyword(split) != Unknown {
      assert d == DecodeTagged(KeywordOf(split[0]), split, c.dimensions, conv).value;
    }
    var r := Apply(c, d, np);
    assert r == Step(c, split, np, conv).value;
  }

  /**
    After a complete read, the particle list is the one it started with followed
    by one particle per particle line, in file order, each read from its line
    with one coordinate per dimension then in force.
   */
  lemma {:induction false} ReadAppendsParticles(c: Config, lines: seq<seq<string>>, np: int, conv: Converters)
    requires np >= 1 && WellFormedInput(c, lines, np, conv) && Read(c, lines, np, conv).Completed?
    ensures var r, ps := Read(c, lines, np, conv).config, ParticleLines(c, lines, np, conv);
      && |r.templateSystem| == |c.templateSystem| + |ps|
      && r.templateSystem[..|c.templateSystem|] == c.templateSystem
      && forall k :: 0 <= k < |ps| ==>
           ParsedParticle(r.templateSystem[|c.templateSystem| + k], ps[k].split, ps[k].dimensions, conv)
    decreases |lines|
  {
    if lines != [] {
      var prefix, last := lines[..|lines| - 1], lines[|lines| - 1];
      ReadAppendsParticles(c, prefix, np, conv);
      var c' := Read(c, prefix, np, conv).config;
      StepLists(c', last, np, conv);
      var r := Read(c, lines, np, conv).config;
      assert r == Step(c', last, np, conv).value;
      var n := |c.templateSystem|;
      assert r.templateSystem[..n] == c'.templateSystem[..n];
    }
  }

  /** Likewise the potentials: one per potential line, in file order. */
  lemma {:induction false} ReadAppendsPotentials(c: Config, lines: seq<seq<string>>, np: int, conv: Converters)
    requires np >= 1 && WellFormedInput(c, lines, np, conv) && Read(c, lines, np, conv).Completed?
    ensures var r, vs := Read(c, lines, np, conv).config, PotentialLines(c, lines, np, conv);
      && |r.potentials| == |c.potentials| + |vs|
      && r.potentials[..|c.potentials|] == c.potentials
      && forall k :: 0 <= k < |vs| ==>
           ParsedPotential(r.potentials[|c.potentials| + k], vs[k].split, vs[k].dimensions, conv)
    decreases |lines|
  {
    if lines != [] {
      var prefix, last := lines[..|lines| - 1], lines[|lines| - 1];
      ReadAppendsPotentials(c, prefix, np, conv);
      var c' := Read(c, prefix, np, conv).config;
      StepLists(c', last, np, conv);
      var r := Read(c, lines, np, conv).config;
      assert r == Step(c', last, np, conv).value;
      var m := |c.potentials|;
      assert r.potentials[..m] == c'.potentials[..m];
    }
  }

  /** Once the lines before the last have stopped the read, the last line is never read. */
  lemma ReadAfterAbort(c: Config, lines: seq<seq<string>>, np: int, conv: Converters)
    requires np >= 1 && lines != [] && WellFormedInput(c, lines, np, conv)
    requires Read(c, lines[..|lines| - 1], np, conv).Aborted?
    ensures Read(c, lines, np, conv) == Read(c, lines[..|lines| - 1], np, conv)
  {
  }

  /** A read that gets through the lines before the last and then stops, stops at the last line. */
  lemma ReadFailsAtLast(c: Config, lines: seq<seq<string>>, np: int, conv: Converters)
    requires np >= 1 && lines != [] && WellFormedInput(c, lines, np, conv)
    requires Read(c, lines[..|lines| - 1], np, conv).Completed? && Read(c, lines, np, conv).Aborted?
    ensures var r := Read(c, lines, np, conv);
      && r.error.line == |lines| - 1
      && r.partial == Read(c, lines[..|lines| - 1], np, conv).config
      && LineWellFormed(r.partial.dimensions, lines[|lines| - 1])
      && Step(r.partial, lines[|lines| - 1], np, conv) == Failure(r.error.cause)
  {
  }

  /**
    A read that stops does so at the first failing line: the lines before it
    were all read, they produced the partial parameters, and its own conversion
    fails there.
   */
  lemma {:induction false} ReadStopsAtFailingLine(c: Config, lines: seq<seq<string>>, np: int, conv: Converters)
    requires np >= 1 && WellFormedInput(c, lines, np, conv) && Read(c, lines, np, conv).Aborted?
    ensures var r := Read(c, lines, np, conv); var k := r.error.line;
      && k < |lines|
      && WellFormedInput(c, lines[..k], np, conv)
      && Read(c, lines[..k], np, conv) == Completed(r.partial)
      && LineWellFormed(r.partial.dimensions, lines[k])
      && Step(r.partial, lines[k], np, conv) == Failure(r.error.cause)
    decreases |lines|
  {
    var prefix := lines[..|lines| - 1];
    if Read(c, prefix, np, conv).Aborted? {
      ReadAfterAbort(c, lines, np, conv);
      ReadStopsAtFailingLine(c, prefix, np, conv);
      var r := Read(c, lines, np, conv);
      assert r == Read(c, prefix, np, conv);
      var k := r.error.line;
      assert lines[..k] == prefix[..k];
      assert lines[k] == prefix[k];
    } else {
      assert lines[..|lines| - 1] == prefix;
      ReadFailsAtLast(c, lines, np, conv);
    }
  }
}
