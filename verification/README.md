# DMCPP run parameters: reading the `input` file

DMCPP is a diffusion Monte Carlo code. Before the simulation starts, every
process runs `params::read_input` (src/params.cpp). It reads the text file
`input` line by line. Each line is split on whitespace and dispatched on its
first token, the tag. Each tag overwrites one run parameter (`dimensions`,
`walkers`, `tau`, ...), sets a flag (`no_wavefunction`, `no_exchange`,
`seperation_correction`) or appends to a list: `particle` lines append to the
template system, `grid_potential`, `harmonic_well` and `atomic_potential`
lines to the external potentials. After the last line, the table of
exchangeable particle pairs is built from the template system.

This project models that reading and proves what it guarantees.

- `wrappers.dfy`: the `Option` and `Result` types.
- `tokens.dfy` (module `Tokens`): `split_whitespace` as a function on strings,
  with its round trip against joining tokens with spaces, and `b2s`.
- `input.dfy` (module `Input`): the parameters as a value (`Config`), the
  defaults, and the dispatch chain split into two halves.
  - `Decode` turns a line into a `Directive`, doing the conversions its tag
    needs.
  - `Apply` makes the assignment or the append.
  - `Read` folds the lines in order and stops at the first line whose
    conversion throws.
- `input_facts.dfy` (module `InputFacts`): what reading guarantees. Lines
  compose; ignored lines change nothing; the last line of each setting wins;
  repeated setting lines are idempotent; particles and potentials are appended
  in file order; reading stops at the first failing line.
- `exchange.dfy` (module `Exchange`): the exchange-pair table as a sequence of
  entries. It is proved sound, complete, duplicate-free and ordered, also in
  the flattened form of the two vectors the program keeps.
- `params.dfy` (module `Params`): the class `params` with its static members
  as fields, and imperative methods that update them in place.
  - `parse_particle`, `parse_atomic_potential` and each branch of the chain.
  - The `getline` loop and the exchange-table loops.
  - Each method is proved against the functions above.

How the model treats the program's environment:

- `std::stoi` and `std::stod` are the parameter `conv: Converters`. `None`
  stands for the exception they throw. Nothing in the program catches it, so
  reading stops at that line. The parameters keep what the earlier lines
  assigned, and the exchange table is not built.
- `new double[dimensions]` in `parse_atomic_potential` throws for a negative
  dimensionality. This is the error `BadArrayLength`.
- The file's lines are the parameter `lines`.
- `particle::exchange_symmetry` is the parameter `sym`.
- The walker count is shared among the `np` processes with C++ division, which
  truncates toward zero (`TruncDiv`). Dafny's `/` would floor a negative count.

## Model

| member | source | states |
|---|---|---|
| Input.Defaults | src/params.cpp:28-43 | The starting parameters are usable as they stand: positive dimensionality, walker count, iteration count and time step; population bounds on either side of the target; an exchange probability within [0, 1]; no particles and no potentials |
| Params.Params.constructor | src/params.cpp:28-47 | Starts from the defaults: one process of rank 0, every parameter at its initial value, empty lists and exchange vectors |
| Params.Params.SetProcesses | src/params.cpp:267-268 | Records the process count and this process's rank as MPI reports them, and changes nothing else |
| Tokens.WordLength | src/params.cpp:62-64 | The token the extractor reads runs up to, and not including, the first whitespace character or the end of the line, and holds no whitespace |
| Tokens.SplitWhitespace | src/params.cpp:57-65 | Every token is non-empty and free of whitespace; there are no tokens exactly when the line is blank or empty |
| Tokens.SplitJoinWords | src/params.cpp:57-65 | Round trip: tokens joined with single spaces split back into the same tokens |
| Tokens.SplitAtSpace | src/params.cpp:57-65 | A whitespace character separates: the tokens of `a ch b` are the tokens of `a` followed by those of `b` |
| Tokens.SplitAfterBlank | src/params.cpp:57-65 | Leading whitespace never changes the tokens |
| Tokens.SplitWord | src/params.cpp:57-65 | A token followed by whitespace or by the end of the line is the first token |
| Tokens.SplitToken | src/params.cpp:57-65 | A single token splits to itself |
| Tokens.WordLengthOfPrefix | src/params.cpp:57-65 | The token being read ends at the first whitespace, whatever follows it |
| Tokens.BoolToString | src/params.cpp:201-206 | `b2s` gives "true" exactly for true and "false" exactly for false |
| Params.Tokenise | src/params.cpp:98-100 | Every line of the file is split on whitespace, one token list per line, in order |
| Input.TruncDiv | src/params.cpp:115-116 | `N / np` truncates toward zero: the quotient times `np` lies within one `np` of `N`, on the side of zero |
| Input.IsComment | src/params.cpp:104-107 | A first token is a comment exactly when `!`, `#` or `//` is a prefix of it |
| Input.KeywordOf | src/params.cpp:110-176 | The tag comparisons of the chain: a token is recognised only when it is exactly the text of the tag it is recognised as |
| Input.KeywordOfTagName | src/params.cpp:110-176 | Each tag of the chain is recognised as itself |
| Input.IntAt | src/params.cpp:111 | Converting an integer argument succeeds exactly when `stoi` does, with its value; otherwise the offending token is reported |
| Input.RealAt | src/params.cpp:120 | Converting a real argument succeeds exactly when `stod` does, with its value; otherwise the offending token is reported |
| Input.RealsAt | src/params.cpp:77-78 | `n` coordinates converted left to right: they all arrive, one value per token, exactly when every token converts; otherwise the first token that does not convert is reported |
| Input.RealsAtFirstFailure | src/params.cpp:77-78 | Conversion stops at the first coordinate that fails, and that token is the one reported |
| Input.ParticleOf | src/params.cpp:68-80 | A particle line is read exactly when its mass, charge, spin count and coordinates all convert. The particle has the line's name and those values, with one coordinate per dimension in force. Otherwise the first field that fails, in that order, is reported |
| Input.ParsedParticleUnique | src/params.cpp:68-80 | A particle line and the dimensionality in force determine the particle completely, coordinates included |
| Input.ParsedPotentialUnique | src/params.cpp:82-92 | A potential line and the dimensionality in force determine the potential completely |
| Input.AtomicOf | src/params.cpp:82-92 | An atomic potential is read exactly when its charge converts, the dimensionality is not negative and every coordinate converts; it has the line's charge and `dimensions` coordinates. Otherwise the first of these to fail is reported: the charge, then the array length, then the first bad coordinate |
| Input.DecodeTagged | src/params.cpp:110-176 | Each branch of the chain yields a directive of its own tag. A particle or potential carries the line's arguments, with one coordinate per dimension in force for a particle or an atomic potential, and only the converting branches can fail |
| Input.Decode | src/params.cpp:100-107 | Blank and comment lines do nothing. Any other line yields a directive of its tag, and can fail only when its tag converts a number |
| Input.Apply | src/params.cpp:110-176 | The assignment of a branch never touches the trial energy. A particle directive appends exactly its particle and a potential directive exactly its potential; no other directive touches those lists (each setting's frame is `ApplyFrame`) |
| Input.StepOutcome | src/params.cpp:100-176 | One pass of the loop body (`Step`): only a line whose tag converts a number can throw; a blank line, a comment or an unknown tag leaves the parameters as they were; no line changes the trial energy |
| Input.Read | src/params.cpp:95-177 | Reading stops, if it does, at a line of the input |
| InputFacts.ReadConcat | src/params.cpp:98-177 | Reading `a + b` is reading `a`, then `b` from where `a` left off. `a + b` is well formed exactly when `a` is, and `b` is from there |
| InputFacts.ReadOne | src/params.cpp:98-177 | A single line is read by one step of the chain; if it throws, the starting parameters are kept |
| InputFacts.IgnoredLineChangesNothing | src/params.cpp:101-176 | Inserting a blank, comment or unknown-tag line anywhere changes neither well-formedness nor the parameters and lists read |
| InputFacts.DecodeSetting | src/params.cpp:110-176 | A line tagged for a setting succeeds exactly when its value converts, and stores that value |
| InputFacts.StepSettingTagged | src/params.cpp:110-176 | Through the whole line (comment check and dispatch), a setting line stores its value and fails exactly when the value does not convert. For `walkers` the value is `N / np` truncated |
| InputFacts.DecodeAppend | src/params.cpp:142-156 | A `particle`, `grid_potential`, `harmonic_well` or `atomic_potential` branch goes through exactly when every conversion it makes does. When it throws, the error is the first failing field `parse_particle` or `parse_atomic_potential` reports, or the well's coefficient |
| InputFacts.StepAppendTagged | src/params.cpp:100-156 | Through the whole line, a particle or potential line read at the dimensionality in force goes through exactly when every conversion of its branch does |
| InputFacts.ApplyFrame | src/params.cpp:110-176 | Each assignment writes only its own setting. The trial energy is never written, and only particle and potential lines touch the two lists |
| InputFacts.StepFrame | src/params.cpp:110-176 | A line leaves every setting of another tag, and the trial energy, unchanged |
| InputFacts.ReadKeepsTrialEnergy | src/params.cpp:95-177 | No line sets the trial energy; it keeps its starting value |
| InputFacts.LastTagged | src/params.cpp:98-177 | Finds the last line carrying a tag, or reports that none does |
| InputFacts.LastSettingWins | src/params.cpp:110-172 | After a complete read, each setting holds the value of the last line with its tag, or its starting value when no line has that tag |
| InputFacts.DecodeIgnoresDimensions | src/params.cpp:110-176 | Only `particle` and `atomic_potential` lines depend on the dimensionality in force |
| InputFacts.ApplyTwice | src/params.cpp:110-176 | Applying a setting or flag assignment to its own result changes nothing more |
| InputFacts.StepRepeat | src/params.cpp:110-176 | A setting or flag line read again right after itself changes nothing more |
| InputFacts.RepeatedSettingLine | src/params.cpp:159-176 | Reading a setting or flag line twice in a row has the same effect as reading it once |
| InputFacts.RepeatedLineAtEnd | src/params.cpp:159-176 | A setting or flag line repeated at the end of the input changes nothing more |
| InputFacts.StepLists | src/params.cpp:142-156 | A particle line appends the particle it describes, with one coordinate per dimension in force. A potential line appends the potential it describes, an atomic one also with one coordinate per dimension in force, and any other line leaves both lists alone |
| InputFacts.ReadAppendsParticles | src/params.cpp:143-144 | After a complete read, the template system is the starting one followed by one particle per particle line, in file order, each read from its line with one coordinate per dimension in force when that line is reached |
| InputFacts.ReadAppendsPotentials | src/params.cpp:146-156 | After a complete read, the potentials are the starting ones followed by one per potential line, in file order, each read from its line, an atomic potential with one coordinate per dimension in force when that line is reached |
| InputFacts.ReadStopsAtFailingLine | src/params.cpp:98-177 | An aborted read stops at its first failing line: the lines before it read completely and gave the partial parameters, and this line's conversion fails |
| Exchange.RowPairs | src/params.cpp:185-197 | The inner loop records at most one entry per earlier particle |
| Exchange.TableSize | src/params.cpp:182-198 | The first `n` rows (`TablePairs`) hold at most one entry per pair `j < i < n` |
| Exchange.ExchangeTableSize | src/params.cpp:182-198 | The whole table (`ExchangeTable`) holds at most `n(n-1)/2` entries for `n` particles |
| Exchange.RowSound | src/params.cpp:185-197 | Row `i` holds only recorded pairs `j < i` with non-zero symmetry, in increasing `j` |
| Exchange.TableSound | src/params.cpp:182-198 | Every entry of the first `n` rows is a recorded pair below row `n`, and the entries are ordered by `i`, then `j` |
| Exchange.RowComplete | src/params.cpp:185-197 | Every `j < i` with non-zero symmetry is in row `i` |
| Exchange.TableComplete | src/params.cpp:182-198 | Every pair `j < i` below row `n` with non-zero symmetry is in the table |
| Exchange.ExchangeTableCorrect | src/params.cpp:182-198 | The table lists exactly the pairs `j < i` with non-zero symmetry. Each appears once with its symmetry, ordered by `i`, then `j` |
| Exchange.FlatPairs | src/params.cpp:194-195 | Two indices are pushed per entry |
| Exchange.Signs | src/params.cpp:196 | One value is pushed per entry |
| Exchange.FlatLayout | src/params.cpp:194-196 | Entry `k` sits at positions `2k` and `2k+1` of the pair vector and `k` of the value vector |
| Exchange.ExchangeVectorsWellFormed | src/params.cpp:182-198 | The pair vector is twice as long as the value vector, and each pair is `lo < hi < |template_system|` with a non-zero value equal to its symmetry. The pairs are ordered by `hi`, then `lo`, and every exchangeable pair is present |
| Params.FlatPairsPush | src/params.cpp:194-196 | Pushing one entry adds its two indices and its symmetry at the end of the vectors |
| Params.PushRow | src/params.cpp:185-197 | The inner loop pushes exactly row `i` of the table onto both vectors |
| Params.Params.BuildExchangeTable | src/params.cpp:182-198 | The loops append exactly the flattened exchange table of the template system, and touch nothing else |
| Params.Params.ParseParticle | src/params.cpp:68-80 | Appends the particle `ParticleOf` describes; on a failed conversion it appends nothing and reports the failing token |
| Params.Params.ParseAtomicPotential | src/params.cpp:82-92 | Appends the potential `AtomicOf` describes; on a failed conversion or a negative length it appends nothing and reports the error |
| Params.Params.ApplyTagged | src/params.cpp:110-176 | One branch of the chain changes the parameters as `Apply` says, or, when its conversion throws, changes nothing |
| Params.Params.ApplyInteger | src/params.cpp:110-128 | The `dimensions`, `walkers` and `iterations` branches change the parameters as `Apply` says, or, when `stoi` throws, change nothing |
| Params.Params.ApplyRatio | src/params.cpp:118-168 | The `max_pop_ratio`, `min_pop_ratio` and `exchange_prob` branches change the parameters as `Apply` says, or, when `stod` throws, change nothing |
| Params.Params.ApplyTimeStep | src/params.cpp:130-140 | The `tau`, `tau_c_ratio` and `pre_diffusion` branches change the parameters as `Apply` says, or, when `stod` throws, change nothing |
| Params.Params.ApplyAppend | src/params.cpp:142-156 | The particle and potential branches append as `Apply` says, or, when a conversion throws, append nothing |
| Params.Params.ApplyFixed | src/params.cpp:158-176 | The branches that convert nothing set their flag or text, and an unknown tag changes nothing |
| Params.Params.ApplyLine | src/params.cpp:100-176 | One pass of the loop body changes the parameters as `Step` says, or, when it throws, changes nothing |
| Params.Params.ReadLines | src/params.cpp:97-177 | The `getline` loop leaves the parameters `Read` gives. If a line throws, it reports that line and keeps the parameters the lines before it set |
| Params.Params.ReadInput | src/params.cpp:95-199 | `read_input` leaves the parameters `Read` gives. After a complete read, the flattened exchange table of the particles read is appended; after an aborted one, the exchange vectors are unchanged |

## Left out

- MPI start-up and shut-down, the rank-ordered read loop and the barrier are left out (src/params.cpp:257-295, 329): they are process coordination. `SetProcesses` stands for the two `MPI_Comm_*` queries.
- Opening and closing the `input` file, and `getline`, are left out: the lines are a parameter.
- All output is left out: `output_sim_details`, the output files, `flush`, and the leak report in `free_memory`.
- `time()`, `clock()` and `srand` are left out: they are the clock and random seeding.
- `total_charge` is left out: it is floating-point summation.
- `std::stoi` and `std::stod` are abstracted as the `Converters` parameter. The digits they accept, and their range errors, are whatever that parameter says.
- Real parameters are Dafny `real`, not IEEE doubles.
- The `int` width of the integer parameters is not modelled: the converters give the values `stoi` returns, and dividing by `np >= 1` cannot overflow.
- The potential classes (`grid_potential`, `harmonic_well`, `atomic_potential`) are not part of this model. A potential is recorded with the arguments its constructor receives. A `grid_potential` line records its file name without opening the file.
- `particle` is not part of this model. A particle is its name, mass, charge, spin count and coordinates. `particle::exchange_symmetry` is an arbitrary function `sym`.
- Params.Params.ParseParticle: the particle's coordinate array is allocated inside the `particle` class, which is not part of this model. It is taken to hold `max(dimensions, 0)` entries, the ones the loop fills.
- Input.ParticleOf, Input.AtomicOf, Input.Decode, Input.DecodeTagged, Input.Step, Input.Read, Params.Params.ParseParticle, Params.Params.ParseAtomicPotential, Params.Params.ApplyLine, Params.Params.ReadLines, Params.Params.ReadInput: each line must hold every token its tag could read. That is `5 + dimensions` tokens for `particle`, `2 + dimensions` for `atomic_potential` and 2 for the other tags with an argument (`HasArguments`, `LineWellFormed`, `WellFormedInput`), counted at the dimensionality in force when the line is reached. A line with fewer tokens is excluded even when a conversion before the missing token would throw first. For example, with 3 dimensions, `particle e 1.0 x` throws at the charge in the program but is outside the model, and so is `atomic_potential bad`. Such lines are kept out because the model's conversions take all of a line's fields at once. A line that really does read past its last token is undefined behaviour in C++ and is excluded too.
- Pointer ownership is not modelled: the `new` allocations of particles and potentials, and the memory that leaks when a conversion throws after the allocation.
- The trial energy is read by the simulation as its starting value, but no tag of `read_input` sets it. The model follows the code: it keeps its default of 0 (`ReadKeepsTrialEnergy`).
- A malformed number stops the program with an uncaught exception. It is not a reported configuration error. The model records it as an aborted read.
- src/main.cpp and the plotting scripts are not part of this model: the walker pipeline `main` drives lives in `walker_collection`, which this model does not cover, and the scripts are plotting.
