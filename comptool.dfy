/**
 * The driver `CompTool`: `run_command` dispatches to suffix-array
 * construction, the k-mer search and the chaining stage. The file system is
 * split in two: `fasta` maps each readable FASTA path to its text, and
 * `existing` is the set of anchor tables the chaining stage can open. A
 * stage that prints a diagnostic and calls `exit(1)` ends the run with
 * `Exited`; the `Run` still lists the tables it had opened before that (their
 * contents as far as the stream had flushed them are not modelled).
 */
module Driver {
  import opened Outcomes
  import opened Paths
  import opened Naming
  import opened Encoding
  import opened Options
  import opened Search

  /** An anchor table written by the search stage: its name, its header line and the records after it. */
  datatype AnchorFile = AnchorFile(name: string, header: string, records: seq<Record>)

  /** The chain table: its name, its header line, the `-n` distance and the anchor tables chained into it, in order. */
  datatype ChainRun = ChainRun(output: string, header: string, nearDist: int, inputs: seq<string>)

  /** What the chaining stage leaves: the chain table, if it got as far as creating it, and the error it stopped on. */
  datatype ChainOutcome = ChainOutcome(chains: Option<ChainRun>, error: Option<Error>)

  /** What one invocation leaves behind. */
  datatype Run = Run(status: Status, anchorFiles: seq<AnchorFile>, chains: Option<ChainRun>)

  function Names(files: seq<AnchorFile>): (names: seq<string>)
  {
    seq(|files|, t requires 0 <= t < |files| => files[t].name)
  }

  function Elements(names: seq<string>): (r: set<string>)
  {
    set n | n in names
  }

  function StatusOf(error: Option<Error>): (r: Status)
  {
    if error.Some? then Exited(error.value) else Completed
  }

  /**
   * The option-dependent demands of the search loops: every value flag the
   * loop reaches has its value token (`ValuesPresent`), and a strand that
   * runs needs `k >= 0` and `slide_letters >= 1`.
   */
  predicate SearchWellDefined(args: seq<string>, atoi: string -> int)
  {
    ValuesPresent(args, 3, SearchValueFlags) &&
    var o := ParseSearch(args, atoi);
    (o.searchForward || o.searchBackward) ==> 0 <= o.k && 1 <= o.slideLetters
  }

  // ---------------------------------------------------------------- what each stage names

  /** The anchor tables the search stage writes, forward first. */
  function AnchorNames(o: SearchOptions, seq1File: StdString, seq2File: StdString): (r: seq<string>)
  {
    (if o.searchForward then [SearchOutputName(Forward, o.outputsStartPos, seq1File, seq2File)] else []) +
    (if o.searchBackward then [SearchOutputName(Backward, o.outputsStartPos, seq1File, seq2File)] else [])
  }

  /** The anchor tables the chaining stage opens, forward first. */
  function ChainInputs(co: ChainOptions, seq1File: StdString, seq2File: StdString): (r: seq<string>)
  {
    (if co.runsForward then [ChainingInputName(Forward, seq1File, seq2File)] else []) +
    (if co.runsBackward then [ChainingInputName(Backward, seq1File, seq2File)] else [])
  }

  /** A strand's table is among those written exactly when that strand is searched. */
  lemma AnchorNamesMembers(o: SearchOptions, seq1File: StdString, seq2File: StdString)
    ensures SearchOutputName(Forward, o.outputsStartPos, seq1File, seq2File) in AnchorNames(o, seq1File, seq2File)
            <==> o.searchForward
    ensures SearchOutputName(Backward, o.outputsStartPos, seq1File, seq2File) in AnchorNames(o, seq1File, seq2File)
            <==> o.searchBackward
  {
    StrandTablesDistinct(o.outputsStartPos, o.outputsStartPos, seq1File, seq2File, seq1File, seq2File);
  }

  /** A strand's table is among those opened exactly when that strand is chained. */
  lemma ChainInputsMembers(co: ChainOptions, seq1File: StdString, seq2File: StdString)
    ensures ChainingInputName(Forward, seq1File, seq2File) in ChainInputs(co, seq1File, seq2File) <==> co.runsForward
    ensures ChainingInputName(Backward, seq1File, seq2File) in ChainInputs(co, seq1File, seq2File) <==> co.runsBackward
  {
    ChainingReadsSearchOutput(Forward, seq1File, seq2File);
    ChainingReadsSearchOutput(Backward, seq1File, seq2File);
    StrandTablesDistinct(false, false, seq1File, seq2File, seq1File, seq2File);
  }

  /** The chaining stage opens only the forward and the reverse-complement tables. */
  lemma ChainInputsNamed(co: ChainOptions, seq1File: StdString, seq2File: StdString)
    ensures forall n :: n in ChainInputs(co, seq1File, seq2File) ==>
              n == ChainingInputName(Forward, seq1File, seq2File) || n == ChainingInputName(Backward, seq1File, seq2File)
  {
  }

  /**
   * The anchor tables `search_alignment` writes over the query `seq2`:
   * the forward table, then the reverse-complement table, each with the
   * search header and the records of its loop.
   */
  function AnchorTables(o: SearchOptions, seq1File: StdString, seq2File: StdString, seq2: seq<Int8>,
                        index: BwtIndex, search: (BwtIndex, seq<Int8>) -> Range): (files: seq<AnchorFile>)
    requires (o.searchForward || o.searchBackward) ==> 0 <= o.k && 1 <= o.slideLetters
    requires SoundSearch(search)
  {
    var header := SearchHeader(seq1File, seq2File);
    (if o.searchForward
     then [AnchorFile(SearchOutputName(Forward, o.outputsStartPos, seq1File, seq2File), header,
                      ForwardRecordsFrom(seq2, 0, o, index, search))]
     else []) +
    (if o.searchBackward
     then [AnchorFile(SearchOutputName(Backward, o.outputsStartPos, seq1File, seq2File), header,
                      BackwardRecordsFrom(seq2, o.k - 1, o, index, search))]
     else [])
  }

  /** The tables written are those `AnchorNames` lists, each under the search header. */
  lemma AnchorTablesNamed(o: SearchOptions, seq1File: StdString, seq2File: StdString, seq2: seq<Int8>,
                          index: BwtIndex, search: (BwtIndex, seq<Int8>) -> Range)
    requires (o.searchForward || o.searchBackward) ==> 0 <= o.k && 1 <= o.slideLetters
    requires SoundSearch(search)
    ensures var files := AnchorTables(o, seq1File, seq2File, seq2, index, search);
            Names(files) == AnchorNames(o, seq1File, seq2File) &&
            forall t :: 0 <= t < |files| ==> files[t].header == SearchHeader(seq1File, seq2File)
  {
  }

  /**
   * The forward table comes first and holds the forward loop's records;
   * the reverse-complement table comes last and holds the reverse loop's.
   */
  lemma AnchorTablesRecords(o: SearchOptions, seq1File: StdString, seq2File: StdString, seq2: seq<Int8>,
                            index: BwtIndex, search: (BwtIndex, seq<Int8>) -> Range)
    requires (o.searchForward || o.searchBackward) ==> 0 <= o.k && 1 <= o.slideLetters
    requires SoundSearch(search)
    ensures var files := AnchorTables(o, seq1File, seq2File, seq2, index, search);
            (o.searchForward ==> files[0].records == ForwardRecordsFrom(seq2, 0, o, index, search)) &&
            (o.searchBackward ==> files[|files| - 1].records == BackwardRecordsFrom(seq2, o.k - 1, o, index, search))
  {
    var header := SearchHeader(seq1File, seq2File);
    var forward := if o.searchForward
                   then [AnchorFile(SearchOutputName(Forward, o.outputsStartPos, seq1File, seq2File), header,
                                    ForwardRecordsFrom(seq2, 0, o, index, search))]
                   else [];
    var backward := if o.searchBackward
                    then [AnchorFile(SearchOutputName(Backward, o.outputsStartPos, seq1File, seq2File), header,
                                     BackwardRecordsFrom(seq2, o.k - 1, o, index, search))]
                    else [];
    var files := AnchorTables(o, seq1File, seq2File, seq2, index, search);
    assert files == forward + backward;
    if o.searchForward {
      assert files[0] == forward[0];
    }
    if o.searchBackward {
      assert files[|files| - 1] == backward[0];
    }
  }

  /**
   * `run_chaining` on each table in turn: the tables chained before the
   * first one that cannot be opened, and that one (its `exit(1)` ends the run).
   */
  function ChainedUntilMissing(names: seq<string>, existing: set<string>): (r: (seq<string>, Option<string>))
    ensures |r.0| <= |names| && r.0 == names[..|r.0|]
    ensures forall n :: n in r.0 ==> n in existing
    ensures r.1 == None ==> r.0 == names
    ensures r.1.Some? ==> |r.0| < |names| && names[|r.0|] == r.1.value && r.1.value !in existing
  {
    if names == [] then ([], None)
    else if names[0] !in existing then ([], Some(names[0]))
    else
      var rest := ChainedUntilMissing(names[1..], existing);
      ([names[0]] + rest.0, rest.1)
  }

  /**
   * `chain_alignment`: too few files stops before anything is written;
   * otherwise the chain table is created and the strands' tables are
   * chained into it until one is missing.
   */
  function ChainOutcomeOf(args: seq<StdString>, existing: set<string>, atoi: string -> int): (out: ChainOutcome)
    requires ValuesPresent(args, 3, ChainValueFlags)
    ensures out.chains == None <==> |args| < 3
    ensures out.chains == None ==> out.error == Some(TooFewFiles)
  {
    if |args| < 3 then ChainOutcome(None, Some(TooFewFiles))
    else
      var co := ParseChain(args, atoi);
      var chained := ChainedUntilMissing(ChainInputs(co, args[1], args[2]), existing);
      var run := ChainRun(ChainsFileName(args[1], args[2]), ChainsHeader(args[1], args[2]), co.nearDist, chained.0);
      ChainOutcome(Some(run), if chained.1.Some? then Some(NotFound(chained.1.value)) else None)
  }

  /**
   * How `chain_alignment` ends: with too few files nothing is written;
   * otherwise the chain table exists, the tables chained into it are a
   * prefix of those requested, all of them openable, and the stage fails
   * exactly when a requested table is missing, naming that table.
   */
  lemma ChainOutcomeMeaning(args: seq<StdString>, existing: set<string>, atoi: string -> int)
    requires ValuesPresent(args, 3, ChainValueFlags)
    ensures var out := ChainOutcomeOf(args, existing, atoi);
            (out.chains == None <==> |args| < 3) &&
            (|args| < 3 ==> out.error == Some(TooFewFiles))
    ensures |args| >= 3 ==>
              var out := ChainOutcomeOf(args, existing, atoi);
              var names := ChainInputs(ParseChain(args, atoi), args[1], args[2]);
              (out.error == None <==> forall n :: n in names ==> n in existing) &&
              (forall n :: n in out.chains.value.inputs ==> n in existing) &&
              |out.chains.value.inputs| <= |names| && out.chains.value.inputs == names[..|out.chains.value.inputs|] &&
              (out.error.Some? ==> out.error.value.NotFound? && out.error.value.path in names &&
                                   out.error.value.path !in existing)
  {
    if |args| >= 3 {
      var names := ChainInputs(ParseChain(args, atoi), args[1], args[2]);
      var chained := ChainedUntilMissing(names, existing);
      if chained.1.Some? {
        assert names[|chained.0|] == chained.1.value;
      }
    }
  }

  // ---------------------------------------------------------------- the two stages together (`all`)

  /**
   * In `all` mode, when start positions are not requested and every strand
   * chained was also searched, the chaining stage finds every table it
   * opens among those the search stage has just written.
   */
  lemma AllModeChainingFindsAnchors(args: seq<StdString>, existing: set<string>, atoi: string -> int)
    requires |args| >= 3
    requires ValuesPresent(args, 3, SearchValueFlags) && ValuesPresent(args, 3, ChainValueFlags)
    requires !ParseSearch(args, atoi).outputsStartPos
    requires ParseChain(args, atoi).runsForward ==> ParseSearch(args, atoi).searchForward
    requires ParseChain(args, atoi).runsBackward ==> ParseSearch(args, atoi).searchBackward
    ensures ChainOutcomeOf(args, existing + Elements(AnchorNames(ParseSearch(args, atoi), args[1], args[2])), atoi).error
            == None
  {
    var o := ParseSearch(args, atoi);
    var co := ParseChain(args, atoi);
    var written := Elements(AnchorNames(o, args[1], args[2]));
    ChainingReadsSearchOutput(Forward, args[1], args[2]);
    ChainingReadsSearchOutput(Backward, args[1], args[2]);
    forall n | n in ChainInputs(co, args[1], args[2])
      ensures n in existing + written
    {
    }
  }

  /**
   * With `-s` the search stage writes only start-position tables, none of
   * which the chaining stage opens: in `all` mode the chaining stage then
   * behaves as if the search stage had written nothing.
   */
  lemma AllModeStartPosWritesNothingChained(args: seq<StdString>, existing: set<string>, atoi: string -> int)
    requires |args| >= 3
    requires ValuesPresent(args, 3, SearchValueFlags) && ValuesPresent(args, 3, ChainValueFlags)
    requires ParseSearch(args, atoi).outputsStartPos
    ensures ChainOutcomeOf(args, existing + Elements(AnchorNames(ParseSearch(args, atoi), args[1], args[2])), atoi)
            == ChainOutcomeOf(args, existing, atoi)
  {
    var o := ParseSearch(args, atoi);
    StartPosNotChained(o, Forward, args[1], args[2]);
    StartPosNotChained(o, Backward, args[1], args[2]);
    ChainOutcomeIgnores(args, existing, Elements(AnchorNames(o, args[1], args[2])), atoi);
  }

  /** With `-s`, no strand's chaining input is among the tables the search stage writes. */
  lemma StartPosNotChained(o: SearchOptions, strand: Strand, seq1File: StdString, seq2File: StdString)
    requires o.outputsStartPos
    ensures ChainingInputName(strand, seq1File, seq2File) !in AnchorNames(o, seq1File, seq2File)
  {
    StartPosTablesNeverRead(strand, Forward, seq1File, seq2File, seq1File, seq2File);
    StartPosTablesNeverRead(strand, Backward, seq1File, seq2File, seq1File, seq2File);
  }

  /** Paths that are none of the tables the chaining stage opens do not change its outcome. */
  lemma ChainOutcomeIgnores(args: seq<StdString>, existing: set<string>, extra: set<string>, atoi: string -> int)
    requires |args| >= 3 && ValuesPresent(args, 3, ChainValueFlags)
    requires ChainingInputName(Forward, args[1], args[2]) !in extra
    requires ChainingInputName(Backward, args[1], args[2]) !in extra
    ensures ChainOutcomeOf(args, existing + extra, atoi) == ChainOutcomeOf(args, existing, atoi)
  {
    var names := ChainInputs(ParseChain(args, atoi), args[1], args[2]);
    ChainInputsNamed(ParseChain(args, atoi), args[1], args[2]);
    ChainedUntilMissingIgnores(names, existing, extra);
  }

  /** Adding paths no table in `names` has does not change how far chaining gets. */
  lemma {:induction false} ChainedUntilMissingIgnores(names: seq<string>, existing: set<string>, extra: set<string>)
    requires forall n :: n in names ==> n !in extra
    ensures ChainedUntilMissing(names, existing + extra) == ChainedUntilMissing(names, existing)
  {
    if names != [] {
      ChainedUntilMissingIgnores(names[1..], existing, extra);
    }
  }

  /**
   * Both stages parse the same tokens, each with its own set of value
   * flags, so a token one loop consumes as a value the other can read as a
   * flag. With `all a.fa b.fa -n 1f`, the search loop reads `1f` as `-f`
   * and searches forward only, while the chaining loop takes it as the
   * value of `-n` and still chains the backward table, which this run
   * never writes.
   */
  lemma AllModeValueTokenReadAsFlag(atoi: string -> int)
    ensures var args: seq<StdString> := ["all", "a.fa", "b.fa", "-n", "1f"];
            ValuesPresent(args, 3, SearchValueFlags) && ValuesPresent(args, 3, ChainValueFlags) &&
            !ParseSearch(args, atoi).searchBackward && ParseChain(args, atoi).runsBackward &&
            ChainingInputName(Backward, args[1], args[2]) !in AnchorNames(ParseSearch(args, atoi), args[1], args[2])
  {
    var args: seq<StdString> := ["all", "a.fa", "b.fa", "-n", "1f"];
    assert FlagChar(args[3]) == 'n' && FlagChar(args[4]) == 'f';
    var o := ParseSearch(args, atoi);
    assert o == DefaultSearchOptions().(searchBackward := false);
    AnchorNamesMembers(o, args[1], args[2]);
    ChainingReadsSearchOutput(Backward, args[1], args[2]);
    StrandTablesDistinct(false, false, args[1], args[2], args[1], args[2]);
  }

  // ---------------------------------------------------------------- the driver object

  class CompTool {
    /** `num_char_`: the alphabet size the suffix sorter, the index and the complement use. */
    const numChar: int
    var seq1: array<Int8>
    var seq1Size: int
    var seq2: array<Int8>
    var seq2Size: int

    /** The sizes the driver keeps beside its two encoded sequences are their lengths. */
    predicate Valid()
      reads this
    {
      seq1.Length == seq1Size && seq2.Length == seq2Size
    }

    constructor (numChar: int)
      ensures Valid() && this.numChar == numChar && seq1Size == 0 && seq2Size == 0
    {
      this.numChar := numChar;
      seq1 := new Int8[0];
      seq1Size := 0;
      seq2 := new Int8[0];
      seq2Size := 0;
    }

    /**
     * `create_SA`: read the target as `int` codes, sort its suffixes with
     * `induce` (the induced sorter), and keep the codes narrowed to `int8_t`.
     */
    method CreateSA(fasta: map<string, string>, file: string, encode: char -> int,
                    induce: (seq<int>, int) -> seq<int>) returns (r: Result<seq<int>>)
      requires Valid()
      modifies this
      ensures Valid() && seq2 == old(seq2) && seq2Size == old(seq2Size)
      ensures file !in fasta ==> r == Err(NotFound(file)) && seq1 == old(seq1) && seq1Size == old(seq1Size)
      ensures file in fasta ==>
                var text := EncodeAll(Residues(fasta[file]), encode) + [0];
                r == Ok(induce(text, numChar)) && fresh(seq1) && seq1[..] == NarrowAll(text)
    {
      var ints := ReadFastaIntArray(fasta, file, encode);
      if ints.Err? {
        return Err(ints.error);
      }
      var seq1Int := ints.value;
      seq1Size := seq1Int.Length;
      var sa := induce(seq1Int[..], numChar);
      seq1 := new Int8[seq1Size];
      CopyIntToInt8(seq1Int, seq1, seq1Size);
      assert seq1[..] == NarrowAll(seq1Int[..]);
      r := Ok(sa);
    }

    /**
     * `search_alignment`: parse the options, build the index over `seq1`
     * and the suffix array `sa`, read the query, and write one anchor table
     * per strand searched.
     */
    method SearchAlignment(args: seq<StdString>, sa: seq<int>, fasta: map<string, string>, encode: char -> int,
                           atoi: string -> int, search: (BwtIndex, seq<Int8>) -> Range)
      returns (r: Result<seq<AnchorFile>>)
      requires Valid() && SoundSearch(search)
      requires |args| >= 3 ==> ValuesPresent(args, 3, SearchValueFlags)
      requires |args| >= 3 && args[2] in fasta ==> SearchWellDefined(args, atoi)
      modifies this
      ensures Valid() && seq1 == old(seq1) && seq1Size == old(seq1Size)
      ensures |args| < 3 ==> r == Err(TooFewFiles) && seq2 == old(seq2)
      ensures |args| >= 3 && args[2] !in fasta ==> r == Err(NotFound(args[2])) && seq2 == old(seq2)
      ensures |args| >= 3 && args[2] in fasta ==>
                var o := ParseSearch(args, atoi);
                seq2[..] == NarrowAll(EncodeAll(Residues(fasta[args[2]]), encode)) + [0] &&
                r == Ok(AnchorTables(o, args[1], args[2], seq2[..], BwtIndex(seq1[..], sa, numChar, o.bwtInterval), search))
    {
      if |args| < 3 {
        return Err(TooFewFiles);
      }
      var o := ParseSearchOptions(args, atoi);
      var index := BwtIndex(seq1[..], sa, numChar, o.bwtInterval);
      var query := ReadFastaInt8Array(fasta, args[2], encode);
      if query.Err? {
        return Err(query.error);
      }
      seq2 := query.value;
      seq2Size := seq2.Length;
      var header := SearchHeader(args[1], args[2]);
      var forward := [];
      if o.searchForward {
        var records := SearchForward(seq2[..], o, index, search);
        forward := [AnchorFile(SearchOutputName(Forward, o.outputsStartPos, args[1], args[2]), header, records)];
      }
      var backward := [];
      if o.searchBackward {
        var records := SearchBackward(seq2[..], o, index, search);
        backward := [AnchorFile(SearchOutputName(Backward, o.outputsStartPos, args[1], args[2]), header, records)];
      }
      r := Ok(forward + backward);
    }

    /**
     * `chain_alignment`: parse the options, create the chain table and run
     * the chainer on each strand's anchor table in turn.
     */
    method ChainAlignment(args: seq<StdString>, existing: set<string>, atoi: string -> int) returns (out: ChainOutcome)
      requires ValuesPresent(args, 3, ChainValueFlags)
      ensures out == ChainOutcomeOf(args, existing, atoi)
    {
      if |args| < 3 {
        return ChainOutcome(None, Some(TooFewFiles));
      }
      var co := ParseChainOptions(args, atoi);
      var run := ChainRun(ChainsFileName(args[1], args[2]), ChainsHeader(args[1], args[2]), co.nearDist, []);
      ghost var names := ChainInputs(co, args[1], args[2]);
      if co.runsForward {
        var name := ChainingInputName(Forward, args[1], args[2]);
        assert names[0] == name;
        if name !in existing {
          assert ChainedUntilMissing(names, existing) == ([], Some(name));
          return ChainOutcome(Some(run), Some(NotFound(name)));
        }
        run := run.(inputs := run.inputs + [name]);
      }
      if co.runsBackward {
        var name := ChainingInputName(Backward, args[1], args[2]);
        assert names == run.inputs + [name];
        if name !in existing {
          assert ChainedUntilMissing([name], existing) == ([], Some(name));
          assert ChainedUntilMissing(names, existing) == (run.inputs, Some(name));
          return ChainOutcome(Some(run), Some(NotFound(name)));
        }
        run := run.(inputs := run.inputs + [name]);
      }
      assert run.inputs == names;
      if |names| == 2 {
        assert ChainedUntilMissing(names[1..], existing) == (names[1..], None);
      }
      return ChainOutcome(Some(run), None);
    }

    /**
     * `run_command`: `args` is `argv` without the program name. `align`
     * builds the suffix array and searches, `chain` chains existing anchor
     * tables, `all` does both in turn, with the chaining stage seeing the
     * tables the search stage has just written; anything else is reported
     * as an invalid command.
     */
    method RunCommand(args: seq<StdString>, fasta: map<string, string>, existing: set<string>,
                      encode: char -> int, induce: (seq<int>, int) -> seq<int>, atoi: string -> int,
                      search: (BwtIndex, seq<Int8>) -> Range) returns (run: Run)
      requires Valid() && |args| >= 1 && SoundSearch(search)
      requires (args[0] == "align" || args[0] == "all") ==> |args| >= 2
      requires (args[0] == "align" || args[0] == "all") && args[1] in fasta && |args| >= 3 ==>
                 ValuesPresent(args, 3, SearchValueFlags)
      requires (args[0] == "align" || args[0] == "all") && args[1] in fasta && |args| >= 3 && args[2] in fasta ==>
                 SearchWellDefined(args, atoi)
      requires args[0] == "chain" || (args[0] == "all" && args[1] in fasta && |args| >= 3 && args[2] in fasta) ==>
                 ValuesPresent(args, 3, ChainValueFlags)
      modifies this
      ensures Valid()
      ensures args[0] !in {"align", "chain", "all"} ==>
                run == Run(InvalidCommand(args[0]), [], None) && seq1 == old(seq1) && seq2 == old(seq2)
      ensures args[0] == "chain" ==>
                var c := ChainOutcomeOf(args, existing, atoi);
                run == Run(StatusOf(c.error), [], c.chains) && seq1 == old(seq1) && seq2 == old(seq2)
      ensures (args[0] == "align" || args[0] == "all") && args[1] !in fasta ==>
                run == Run(Exited(NotFound(args[1])), [], None) && seq1 == old(seq1) && seq2 == old(seq2)
      ensures (args[0] == "align" || args[0] == "all") && args[1] in fasta ==>
                fresh(seq1) && seq1[..] == NarrowAll(EncodeAll(Residues(fasta[args[1]]), encode) + [0])
      ensures (args[0] == "align" || args[0] == "all") && args[1] in fasta && |args| < 3 ==>
                run == Run(Exited(TooFewFiles), [], None) && seq2 == old(seq2)
      ensures (args[0] == "align" || args[0] == "all") && args[1] in fasta && |args| >= 3 && args[2] !in fasta ==>
                run == Run(Exited(NotFound(args[2])), [], None) && seq2 == old(seq2)
      ensures (args[0] == "align" || args[0] == "all") && args[1] in fasta && |args| >= 3 && args[2] in fasta ==>
                var o := ParseSearch(args, atoi);
                var text := EncodeAll(Residues(fasta[args[1]]), encode) + [0];
                var index := BwtIndex(NarrowAll(text), induce(text, numChar), numChar, o.bwtInterval);
                seq1[..] == NarrowAll(text) &&
                seq2[..] == NarrowAll(EncodeAll(Residues(fasta[args[2]]), encode)) + [0] &&
                run.anchorFiles == AnchorTables(o, args[1], args[2], seq2[..], index, search)
      ensures args[0] == "align" && args[1] in fasta && |args| >= 3 && args[2] in fasta ==>
                run.status == Completed && run.chains == None
      ensures args[0] == "all" && args[1] in fasta && |args| >= 3 && args[2] in fasta ==>
                var written := Elements(AnchorNames(ParseSearch(args, atoi), args[1], args[2]));
                var c := ChainOutcomeOf(args, existing + written, atoi);
                run.status == StatusOf(c.error) && run.chains == c.chains
    {
      var command := args[0];
      if command == "align" || command == "all" {
        var sa := CreateSA(fasta, args[1], encode, induce);
        if sa.Err? {
          return Run(Exited(sa.error), [], None);
        }
        var files := SearchAlignment(args, sa.value, fasta, encode, atoi, search);
        if files.Err? {
          return Run(Exited(files.error), [], None);
        }
        if command == "align" {
          run := Run(Completed, files.value, None);
        } else {
          ghost var o := ParseSearch(args, atoi);
          AnchorTablesNamed(o, args[1], args[2], seq2[..], BwtIndex(seq1[..], sa.value, numChar, o.bwtInterval), search);
          var chaining := ChainAlignment(args, existing + Elements(Names(files.value)), atoi);
          run := Run(StatusOf(chaining.error), files.value, chaining.chains);
        }
      } else if command == "chain" {
        var chaining := ChainAlignment(args, existing, atoi);
        run := Run(StatusOf(chaining.error), [], chaining.chains);
      } else {
        run := Run(InvalidCommand(command), [], None);
      }
    }
  }
}
