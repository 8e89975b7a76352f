# dop comparison driver in Dafny

This project models `CompTool`, the driver of the `dop` genome-comparison tool
(`src/comptool.cpp`). The driver parses the command line and runs two stages.

- The **search** stage builds a suffix array and a BWT index over the target
  sequence (`seq1`). It slides k-mer windows along the query sequence (`seq2`),
  forward and as reverse complements. Each k-mer is looked up in the index,
  and its hits are reported into one anchor table per strand: at most
  `max_num_matches` of them when that value is non-negative, and all of them
  when it is negative.
- The **chaining** stage reopens those anchor tables by name and chains them
  into a chain table.

`run_command` dispatches `align` (search only), `chain` (chaining only) and
`all` (both, with the same arguments).

Modules, one per concern:

| file | module | what it holds |
|---|---|---|
| `outcomes.dfy` | `Outcomes` | errors (`exit(1)` paths), `Result`, `Option`, run status |
| `paths.dfy` | `Paths` | `std::string::find_last_of`, `npos` and its size_t wrap, `basename` |
| `naming.dfy` | `Naming` | anchor-table and chain-table names and headers, and how the two stages' names agree |
| `encoding.dfy` | `Encoding` | `int8_t` narrowing, FASTA body and whitespace skipping, the two readers, the narrowing copy |
| `options.dfy` | `Options` | the two option loops (the `argv[i][1]` test, the `++i` value consumption) |
| `search.dfy` | `Search` | window positions, complement, match cap, the forward and reverse-complement query loops |
| `comptool.dfy` | `Driver` | the `CompTool` object: `create_SA`, `search_alignment`, `chain_alignment`, `run_command` |

Several things outside this file are parameters rather than part of the model:

- `encode_char` is `encode: char -> int`.
- `atoi` is `atoi: string -> int`.
- The induced sorter `IS` is `induce: (seq<int>, int) -> seq<int>`.
- `BWT::search` is `search: (BwtIndex, seq<Int8>) -> Range`. It is assumed only
  to answer with intervals inside the suffix array (`Search.SoundSearch`).
- The file system is split in two. FASTA inputs are a map from path to text.
  The anchor tables that chaining can open are a set of names. What a run
  writes is returned in a `Driver.Run` value.

Integers are mathematical. The source's `int8_t` stores are modelled as
two's-complement narrowing (`Encoding.Narrow`), and `npos + 1` as size_t
arithmetic modulo 2^64.

Undefined behaviour in the source becomes a precondition. Each one is
demanded only of the runs that reach the code concerned:

- no command at all: `argv[0]` is then `NULL`, and `run_command` turns it
  into a `std::string` (src/comptool.cpp:17).
- `align`/`all` given without a first file, which passes `argv[1] == NULL` to
  `create_SA` (src/comptool.cpp:19, 27).
- a value flag given as the last token, where `atoi` would receive
  `argv[argc] == NULL`. The search loop's value flags (`-k`, `-l`, `-m`, `-i`)
  count only for `align` and `all` runs whose first file was found and that
  name two files, since only those reach the loop (src/comptool.cpp:62, 77).
  The chaining loop's value flag (`-n`) counts for `chain`, and for `all`
  only when both files were found, since a missing file ends the run first
  (src/comptool.cpp:234, 257).

One more precondition, `Driver.SearchWellDefined`, also excludes runs that
are not undefined behaviour. For `align` and `all` runs that read both files,
it demands `k >= 0` and `slide_letters >= 1` whenever a strand is searched.
In the source these values behave as follows:

- `slide_letters == 0` makes a window loop (src/comptool.cpp:104, 133) run
  forever once it has a window to visit;
- a negative `slide_letters` moves `i` below 0 from the second window on: the
  forward loop hands `BWT::search` the address `&seq2_[i]` before the array
  (src/comptool.cpp:104-107), the reverse-complement loop reads `seq2_[i-j]`
  before it (src/comptool.cpp:133-136), and `i` heads for signed overflow;
- a negative `k` with the reverse-complement strand on makes `new int8_t[k]`
  (src/comptool.cpp:132) throw `std::bad_array_new_length`;
- a negative `k` on the forward strand hands `BWT::search` a negative length.

The precondition over-approximates these cases; see "## Left out".

## Model

| member | source | states |
|---|---|---|
| Paths.FindLastOf | src/comptool.cpp:11 | the result is `npos` exactly when the character is absent; otherwise it is an index holding the character, with no occurrence after it |
| Paths.Basename | src/comptool.cpp:10-12 | the result has no `/`, is a suffix of the path, and is preceded by a `/` whenever it is shorter than the path |
| Paths.BasenameWithoutSlash | src/comptool.cpp:11 | a path with no `/` is its own base name (`npos + 1` wraps to 0) |
| Paths.BasenameOfDirectory | src/comptool.cpp:11 | a path ending in `/` has an empty base name |
| Paths.BasenameKeepsOut | src/comptool.cpp:10-12 | a character absent from a path is absent from its base name |
| Paths.BasenameIdempotent | src/comptool.cpp:10-12 | taking the base name twice changes nothing |
| Naming.PairSuffix | src/comptool.cpp:98-100 | defines the part of every name taken from the paths: base name, `_`, base name, `.tsv`; its shape is `Naming.PairSuffixShape` |
| Naming.SearchOutputName | src/comptool.cpp:96-100 | defines the search stage's table for a strand, with or without `-s` (the backward names are at src/comptool.cpp:124-128); its properties are the lemmas below |
| Naming.ChainingInputName | src/comptool.cpp:183-185 | defines the table the chaining stage opens for a strand (backward at src/comptool.cpp:190-192); `Naming.ChainingReadsSearchOutput` ties it to the search stage's name |
| Naming.ChainsFileName | src/comptool.cpp:177-178 | defines the chain table's name; `Naming.ChainsFileIsNotAnAnchorTable` separates it from every anchor table |
| Naming.SearchHeader | src/comptool.cpp:103 | defines an anchor table's header, the two paths as given, query first; its shape is `Naming.HeadersAreCommentLines` |
| Naming.ChainsHeader | src/comptool.cpp:180 | defines the chain table's header, the two base names, query first; its shape is `Naming.HeadersAreCommentLines` |
| Naming.PairSuffixShape | src/comptool.cpp:98-100 | the part of every name taken from the paths has no `/` and ends in `.tsv` |
| Naming.TablesInWorkingDirectory | src/comptool.cpp:96-101 | every table either stage writes or opens is a `.tsv` file in the working directory, whatever directories the sequence files are in |
| Naming.HeadersAreCommentLines | src/comptool.cpp:103 | both headers start with `#`; the anchor header is as long as the two paths plus two; each header is one line when neither path holds a newline |
| Naming.PairSuffixWithoutSlash | src/comptool.cpp:10-12 | for paths without a `/`, the names join the paths themselves |
| Naming.NamesFollowPairSuffix | src/comptool.cpp:98-100 | two path pairs with the same pair suffix get the same table names |
| Naming.UnderscoreJoinCollides | src/comptool.cpp:98-100 | the pairs (`a_b`, `c`) and (`a`, `b_c`) get the same anchor tables and the same chain table |
| Naming.ChainingReadsSearchOutput | src/comptool.cpp:183-192 | the table chaining opens for a strand is the one search writes for that strand without `-s` |
| Naming.StartPosTablesNeverRead | src/comptool.cpp:96-100 | no table chaining opens is ever a start-position table, whatever the strands and paths |
| Naming.StrandTablesDistinct | src/comptool.cpp:124-128 | the forward and backward tables of a run never share a name |
| Naming.ChainsFileIsNotAnAnchorTable | src/comptool.cpp:177-178 | the chain table's name never equals an anchor table's name |
| Encoding.Narrow | src/comptool.cpp:279 | the stored `int8_t` agrees with the `int` value modulo 256 |
| Encoding.NarrowKeepsSmallValues | src/comptool.cpp:279 | a value that fits in `int8_t` is copied unchanged |
| Encoding.IsSpace | src/comptool.cpp:239 | defines the characters `>>` skips in the C locale: space, and tab through carriage return |
| Encoding.AfterHeader | src/comptool.cpp:236 | defines what is left of the file once `getline` has consumed the header line; where that ends is `Encoding.HeaderEndsAtFirstNewline` |
| Encoding.Residues | src/comptool.cpp:236-239 | defines the characters both passes deliver: the non-whitespace characters after the header (`Encoding.NonSpaceMembers`) |
| Encoding.EncodeAll | src/comptool.cpp:247 | defines the codes `encode_char` gives each delivered character, in order; `Encoding.WriteCodes` ties the write loop to it |
| Encoding.NarrowAll | src/comptool.cpp:270 | defines the `(int8_t)` cast of each code, in order, by `Encoding.Narrow`; `Encoding.WriteNarrowedCodes` and `Encoding.CopyIntToInt8` tie the loops to it |
| Encoding.HeaderLength | src/comptool.cpp:236 | `getline` never consumes more than the text, and consumes all of it when there is no newline |
| Encoding.HeaderEndsAtFirstNewline | src/comptool.cpp:236 | when there is a newline, `getline` consumes exactly up to and including the first one |
| Encoding.NonSpace | src/comptool.cpp:239 | `>>` never delivers more characters than the input holds |
| Encoding.NonSpaceMembers | src/comptool.cpp:247 | a character is delivered exactly when it occurs in the input and is not whitespace |
| Encoding.NonSpaceAppend | src/comptool.cpp:239 | skipping whitespace distributes over concatenation |
| Encoding.NonSpaceStep | src/comptool.cpp:247 | one more input character adds itself to the delivered characters unless it is whitespace |
| Encoding.NarrowKeepsSentinel | src/comptool.cpp:45-46 | narrowing the `int` codes keeps the 0 sentinel, so `create_SA`'s copy has the `int8_t` reader's shape |
| Encoding.CodesStep | src/comptool.cpp:247 | one more body character extends the stored codes by its encoding unless it is whitespace |
| Encoding.WriteCodes | src/comptool.cpp:247-248 | the second pass stores the encodings of the non-whitespace body characters, in order, stops just after the last one, and leaves every cell from there on as it was |
| Encoding.WriteNarrowedCodes | src/comptool.cpp:270-271 | the same, each code narrowed to `int8_t`, again leaving every cell from there on as it was |
| Encoding.CountResidues | src/comptool.cpp:237-239 | the first pass counts exactly the non-whitespace characters after the header |
| Encoding.ReadFastaIntArray | src/comptool.cpp:231-250 | a missing file is `NotFound`; otherwise the array is the encoded residues followed by one 0, so its length is the count + 1 |
| Encoding.ReadFastaInt8Array | src/comptool.cpp:254-273 | the same, with each code narrowed to `int8_t` |
| Encoding.CopyIntToInt8 | src/comptool.cpp:277-279 | cells below `size` receive the narrowed values, and no other cell changes |
| Options.FlagChar | src/comptool.cpp:78 | defines the character a flag test compares: the second character of a token whose first is ASCII, NUL for a one-character token or one whose first character is not ASCII; `Options.FlagCharIsByte1` ties it to the byte the source reads |
| Options.CharBytes | src/comptool.cpp:78 | defines the UTF-8 bytes of one character, as `argv` holds them |
| Options.Utf8 | src/comptool.cpp:78 | defines the bytes of a whole token, without its terminating NUL |
| Options.Byte1 | src/comptool.cpp:78 | defines `argv[i][1]`: byte 1 of the NUL-terminated token |
| Options.NonAsciiBytes | src/comptool.cpp:78 | a character that is not ASCII encodes as at least two bytes, a lead byte of at least 0xC0 and a continuation byte of at least 0x80, so neither is a flag letter |
| Options.FlagCharIsByte1 | src/comptool.cpp:78-84 | for every non-NUL ASCII character (all flag letters are among them), `FlagChar` of a non-empty token is that character exactly when `argv[i][1]`, byte 1 of its UTF-8 encoding, is |
| Options.ValuesPresent | src/comptool.cpp:78-81 | defines the demand that every value flag the loop reaches from a token on has a token after it for `argv[++i]`; without it `atoi` receives `NULL` |
| Options.DefaultSearchOptions | src/comptool.cpp:67-74 | defines the search defaults: `k` 15, BWT interval 1, step 1, `max_num_matches` 10^9, both strands, no start positions |
| Options.SearchFrom | src/comptool.cpp:77-85 | defines the search loop from a token on: a value flag takes `atoi` of the next token and skips it, `-f`, `-b`, `-s` switch, any other token is passed over |
| Options.ParseSearch | src/comptool.cpp:67-85 | defines the search settings: the loop from token 3 on the defaults; `Options.SearchSwitches` and `Options.SearchValueOrigin` state what it yields |
| Options.ParseSearchOptions | src/comptool.cpp:67-85 | the loop computes the search configuration defined from the defaults and the tokens after the two files |
| Options.SearchSwitches | src/comptool.cpp:82-84 | forward is on unless `-b` is reached, backward unless `-f` is reached, start positions are on exactly when `-s` is reached |
| Options.SearchValueOrigin | src/comptool.cpp:77-81 | `k`, `l`, `m`, `i` keep their defaults unless the flag is reached; otherwise the value is `atoi` of the token after the last occurrence the loop examines |
| Options.DefaultChainOptions | src/comptool.cpp:161-163 | defines the chaining defaults: `near_dist` 50 and both strands |
| Options.ChainFrom | src/comptool.cpp:165-168 | defines the chaining loop from a token on: `-n` takes `atoi` of the next token and skips it, `-f` and `-b` switch, any other token is passed over |
| Options.ParseChain | src/comptool.cpp:161-169 | defines the chaining settings: the loop from token 3 on the defaults; `Options.ChainSwitches` and `Options.NearDistOrigin` state what it yields |
| Options.ParseChainOptions | src/comptool.cpp:161-169 | the loop computes the chaining configuration defined from the defaults and the tokens |
| Options.ChainSwitches | src/comptool.cpp:167-168 | forward chaining is on unless `-b` is reached, and backward unless `-f` is reached |
| Options.NearDistOrigin | src/comptool.cpp:166 | `near_dist` is 50 unless `-n` is reached; otherwise it is `atoi` of the token after the last `-n` the loop examines |
| Search.Positions | src/comptool.cpp:104 | defines the values a `for (i = from; i < bound; i += step)` loop takes, in order; `Search.PositionsMembers` and `Search.PositionsIncreasing` characterise them |
| Search.ForwardStarts | src/comptool.cpp:104 | defines the forward window starts: from 0 while `i < n - k` |
| Search.BackwardEnds | src/comptool.cpp:133 | defines the reverse-complement window ends: from `k - 1` while `i < n - 1` |
| Search.PositionsMembers | src/comptool.cpp:104 | a `for (i = from; i < bound; i += step)` loop visits exactly the values of `[from, bound)` congruent to `from` modulo `step` |
| Search.PositionsIncreasing | src/comptool.cpp:104 | visited values are strictly increasing |
| Search.PositionsShift | src/comptool.cpp:133 | shifting start and bound by `d` shifts every visited value by `d` |
| Search.ForwardWindowsAvoidSentinel | src/comptool.cpp:104 | the forward starts are exactly the multiples of `slide_letters` in `[0, n - k)`, and each window ends before the sentinel |
| Search.BackwardReadsAvoidSentinel | src/comptool.cpp:133-136 | every code the reverse-complement loop reads lies in `[0, n - 2]` |
| Search.BackwardWindowsMatchForward | src/comptool.cpp:104-133 | both loops visit as many windows, and the t-th backward end is the t-th forward start + k - 1 |
| Search.Complement | src/comptool.cpp:136 | defines `num_char_ - x` stored into an `int8_t` cell |
| Search.ReverseComplement | src/comptool.cpp:135-136 | defines a k-mer read backwards with every code complemented; `Search.ReverseComplementInvolution` |
| Search.BackwardQuery | src/comptool.cpp:135-136 | defines the query buffer for the k-mer ending at `i`; `Search.BackwardQueryAt` gives each cell |
| Search.ComplementInvolution | src/comptool.cpp:136 | complementing twice returns the code, through the `int8_t` narrowing |
| Search.ReverseComplementInvolution | src/comptool.cpp:135-136 | the reverse complement of the reverse complement is the k-mer |
| Search.BackwardQueryAt | src/comptool.cpp:135-136 | cell `j` of the query is the complement of `seq2_[i - j]` |
| Search.FillBackwardQuery | src/comptool.cpp:135-136 | the buffer afterwards holds the k-mer ending at `i`, reversed and complemented |
| Search.Reported | src/comptool.cpp:108-110 | defines the reported suffix-array indices; `Search.CappedMatches` proves the break-on-`lb + max` loop yields them |
| Search.WindowRecords | src/comptool.cpp:111-114 | defines one k-mer's records: for each reported index, a start-position record with `-s` and an alignment record without |
| Search.CappedMatches | src/comptool.cpp:108-110 | an empty interval reports nothing; otherwise `lb, lb + 1, ...` are reported, `min(ub - lb + 1, m)` of them when `m >= 0` and all of them when `m < 0` |
| Search.ReportedWithin | src/comptool.cpp:112 | every reported index of a sound interval is a valid suffix-array index |
| Search.ReportMatches | src/comptool.cpp:107-116 | one k-mer's records are its capped suffix-array hits at that query position |
| Search.ForwardRecordsFrom | src/comptool.cpp:104-117 | defines the forward loop's records from a start on: each window's capped hits, window by window; `Search.SearchForward` proves the loop writes them |
| Search.BackwardRecordsFrom | src/comptool.cpp:133-149 | defines the reverse-complement loop's records from an end on; `Search.SearchBackward` proves the loop writes them |
| Search.ForwardRecordsStep | src/comptool.cpp:104-116 | one turn of the forward loop queries the k-mer starting at `i` and reports its capped hits before the later windows' |
| Search.ForwardLoopStep | src/comptool.cpp:104-116 | the records written so far followed by those still to come stay the whole forward table across one turn |
| Search.BackwardLoopStep | src/comptool.cpp:133-149 | the same for the reverse-complement loop |
| Search.BackwardRecordsStep | src/comptool.cpp:133-149 | one turn of the reverse-complement loop queries the complemented k-mer ending at `i` |
| Search.ForwardRecordsAtStarts | src/comptool.cpp:104-116 | every forward record's query position is a visited window start |
| Search.BackwardRecordsAtEnds | src/comptool.cpp:133-149 | every backward record's query position is a visited window end |
| Search.SearchForward | src/comptool.cpp:104-117 | the loop writes the forward records defined window by window |
| Search.SearchBackward | src/comptool.cpp:132-150 | the loop, filling one buffer in place, writes the reverse-complement records defined window by window |
| Driver.SearchWellDefined | src/comptool.cpp:77-85 | defines the search-side demands: every search value flag has its value, and a searched strand has `k >= 0` and `slide_letters >= 1` (an over-approximation, see "## Left out") |
| Driver.AnchorNames | src/comptool.cpp:93-128 | defines the names of the tables search writes, forward first; `Driver.AnchorNamesMembers` |
| Driver.ChainInputs | src/comptool.cpp:182-194 | defines the names of the tables chaining opens, forward first; `Driver.ChainInputsMembers` and `Driver.ChainInputsNamed` |
| Driver.AnchorNamesMembers | src/comptool.cpp:93-128 | a strand's table is written exactly when that strand is searched |
| Driver.ChainInputsMembers | src/comptool.cpp:182-194 | a strand's table is opened exactly when that strand is chained |
| Driver.ChainInputsNamed | src/comptool.cpp:182-194 | chaining opens no table other than the forward and the backward chaining table |
| Driver.AnchorTables | src/comptool.cpp:93-151 | defines the tables the search stage writes, one per searched strand, forward first; their names, headers and records are stated by the two lemmas below |
| Driver.AnchorTablesNamed | src/comptool.cpp:93-128 | the tables search writes carry the names `AnchorNames` lists, in that order, each with the `#seq2\tseq1` header |
| Driver.AnchorTablesRecords | src/comptool.cpp:104-150 | the forward table comes first and holds the forward loop's records; the reverse-complement table comes last and holds that loop's records |
| Driver.ChainedUntilMissing | src/comptool.cpp:203 | the chained tables are a prefix of those requested, all openable; chaining stops at the first table that cannot be opened, or at none |
| Driver.ChainOutcomeOf | src/comptool.cpp:158-195 | `chain_alignment` writes the chain table exactly when at least two files are named; with fewer it stops with `TooFewFiles` |
| Driver.ChainOutcomeMeaning | src/comptool.cpp:158-195 | too few files writes nothing; otherwise chaining fails exactly when a requested table is missing, and only with `NotFound` of that table |
| Driver.ChainOutcomeIgnores | src/comptool.cpp:182-203 | adding files that are neither chaining table leaves the chaining outcome unchanged |
| Driver.StartPosNotChained | src/comptool.cpp:96-100 | with `-s`, neither chaining table is among the tables search writes |
| Driver.ChainedUntilMissingIgnores | src/comptool.cpp:199-203 | files that are not requested tables do not change how far chaining gets |
| Driver.AllModeChainingFindsAnchors | src/comptool.cpp:26-30 | in `all` without `-s`, when every chained strand was searched, chaining finds every table it needs |
| Driver.AllModeStartPosWritesNothingChained | src/comptool.cpp:26-30 | in `all` with `-s`, chaining behaves as if search had written nothing |
| Driver.AllModeValueTokenReadAsFlag | src/comptool.cpp:28-30 | the two loops can read one token differently: with `-n 1f`, search drops the backward strand but chaining still opens its table |
| Driver.CompTool.constructor | src/comptool.cpp:4 | the object starts with empty sequences whose sizes match |
| Driver.CompTool.CreateSA | src/comptool.cpp:38-49 | a missing target is `NotFound`; otherwise the suffix array is the sorter's output on the encoded target with sentinel, and `seq1` holds those codes narrowed |
| Driver.CompTool.SearchAlignment | src/comptool.cpp:61-152 | too few files, then a missing query, stop the stage; otherwise `seq2` holds the narrowed query with sentinel, and the tables written are `AnchorTables` over it: one per searched strand, under its name, with its loop's records |
| Driver.CompTool.ChainAlignment | src/comptool.cpp:158-195 | the stage computes the chaining outcome defined by `ChainOutcomeOf` |
| Driver.CompTool.RunCommand | src/comptool.cpp:15-35 | dispatch by command, each run demanding only the option loops it reaches (search values once the first file is read and two files are named, the `-n` value for `chain` and for `all` once both files are read); each stage's errors in source order; `seq1` holds the narrowed target once `create_SA` has read it, even when search stops; `chain` and an invalid command leave both sequences alone; the search stage's tables are computed over the index of the narrowed target; in `all`, chaining sees the tables search has just written |

## Left out

- `IS`, `BWT`, `Chaining` and `Alignment` are defined outside `src/comptool.cpp` and are not part of this model. They enter only as function parameters (`induce`, `search`) or not at all. The records a chain table receives are not modelled: the chain table carries only its name, its header, `near_dist` and the anchor tables fed into it.
- `output_alignment_forward`, `output_alignment_backward` and `output_startpos` are not part of this model. An anchor table holds abstract `Record` values, not text lines.
- Stream I/O is not modelled:
  - `ifstream`/`ofstream` and `cout` diagnostics;
  - how a run writes its tables to disk and how a later run finds them (`existing` is given);
  - the line counting and re-reading of `run_chaining` (src/comptool.cpp:199-221).
- Memory management is not modelled. This includes `delete` used on arrays allocated with `new[]` (src/comptool.cpp:21, 29, 47).
- C `int` overflow is not modelled in `lb + max_num_matches` (src/comptool.cpp:110, 142), in `i += slide_letters`, or in the sizes. All are mathematical integers here.
- An empty argument token, whose `argv[i][1]` reads past the terminator, is modelled as carrying no flag.
- Options.FlagChar: argument tokens are Dafny strings of Unicode characters and are taken to reach `argv` as UTF-8 (`Options.Utf8`). The flag test compares characters; `Options.FlagCharIsByte1` proves it agrees with byte 1 on every flag letter. Encodings other than UTF-8 are not modelled.
- FASTA text and paths are Dafny strings of Unicode characters. The source reads `char` bytes (`char buf; ifs >> buf`, src/comptool.cpp:238-247). A non-ASCII character is one residue here but one residue per UTF-8 byte in the source. `encode` receives whole characters, and `Encoding.IsSpace` tests the ASCII whitespace that `>>` skips in the C locale.
- Driver.CompTool.SearchAlignment: requires `Driver.SearchWellDefined` once the query has been read, with the over-approximation described in the next line.
- Driver.CompTool.RunCommand: for `align` and `all` runs that read both files, `Driver.SearchWellDefined` demands `k >= 0` and `slide_letters >= 1` whenever a strand is searched. It demands this also of runs whose query is too short for any window, which the source completes with empty tables. The reason: a non-terminating loop, a thrown `bad_array_new_length` and reads before the start of `seq2_` cannot be stated as results of a terminating model.
- The contents of the chain table at an `exit(1)` are not modelled. `run_chaining` exits (src/comptool.cpp:203) without running the destructor of `chain_alignment`'s `ofstream` (src/comptool.cpp:179). So what it had buffered, beyond the header flushed by `endl`, may never reach the file. `Driver.ChainRun` records only which tables were fed in.
- `main` (src/comptool.cpp:3-7) only forwards `argv`. `run_command`'s `argc--; argv++` is modelled by passing the arguments after the program name.
- `num_char_` and the object's initial field values are declared in `comptool.h`, which is not part of this model. `numChar` is a constructor parameter.

## Observations

- `encode_char` maps `N` to 0 (comment at src/comptool.cpp:230), the same value as the sentinel both readers append. The model keeps `encode` abstract and does not change this.
- In `all` mode with `-s`, search writes only start-position tables and chaining never reads them (`Driver.AllModeStartPosWritesNothingChained`). Chaining then depends on tables left over from an earlier run, or stops with `NotFound`.
- Both option loops scan the same tokens with different sets of value flags. A token one loop takes as a value can be a flag to the other (`Driver.AllModeValueTokenReadAsFlag`).
- Table names join the two base names with `_`, so distinct path pairs can map to the same table name (`a_b` + `c` and `a` + `b_c`, `Naming.UnderscoreJoinCollides`).
- `-l 0` makes a window loop run forever as soon as the query has one window (src/comptool.cpp:104, 133): `i += slide_letters` never advances. A negative `-l` instead walks `i` down past the start of `seq2_` from the second window on.
