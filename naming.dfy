/**
 * The names of the intermediate files: the anchor tables that the search
 * stage writes and the chaining stage reads back, and the chain table.
 * Both stages build these names on their own, from literal prefixes and the
 * base names of the two sequence files; this module states how they agree.
 */
module Naming {
  import opened Paths

  datatype Strand = Forward | Backward

  /** The literal part of an anchor table's name written by the search stage. */
  function SearchPrefix(strand: Strand, startPos: bool): (prefix: string)
  {
    match strand
    case Forward => if startPos then "alignments-forward-startpos_" else "alignments-forward-for-chaining_"
    case Backward => if startPos then "alignments-backward-startpos_" else "alignments-backward-for-chaining_"
  }

  /** The part of every intermediate file name taken from the two sequence paths. */
  function PairSuffix(seq1File: StdString, seq2File: StdString): (suffix: string)
  {
    Basename(seq1File) + "_" + Basename(seq2File) + ".tsv"
  }

  /** The anchor table the search stage writes for one strand (with `-s`: the start-position table). */
  function SearchOutputName(strand: Strand, startPos: bool, seq1File: StdString, seq2File: StdString): (name: string)
  {
    SearchPrefix(strand, startPos) + PairSuffix(seq1File, seq2File)
  }

  /** The anchor table the chaining stage opens for one strand. */
  function ChainingInputName(strand: Strand, seq1File: StdString, seq2File: StdString): (name: string)
  {
    var prefix :=
      if strand == Forward then "alignments-forward-for-chaining_" else "alignments-backward-for-chaining_";
    prefix + PairSuffix(seq1File, seq2File)
  }

  /** The chain table the chaining stage writes. */
  function ChainsFileName(seq1File: StdString, seq2File: StdString): (name: string)
  {
    "chains_" + PairSuffix(seq1File, seq2File)
  }

  /** First line of an anchor table: the two paths as given, query first. */
  function SearchHeader(seq1File: StdString, seq2File: StdString): (header: string)
  {
    "#" + seq2File + "\t" + seq1File
  }

  /** First line of the chain table: the two base names, query first. */
  function ChainsHeader(seq1File: StdString, seq2File: StdString): (header: string)
  {
    "#" + Basename(seq2File) + "\t" + Basename(seq1File)
  }

  /** The table chaining opens is the one search writes when start positions are not requested. */
  lemma ChainingReadsSearchOutput(strand: Strand, seq1File: StdString, seq2File: StdString)
    ensures ChainingInputName(strand, seq1File, seq2File) == SearchOutputName(strand, false, seq1File, seq2File)
  {
  }

  /** No start-position table is ever opened by chaining, whatever the strands and paths. */
  lemma StartPosTablesNeverRead(strand: Strand, strand': Strand, seq1File: StdString, seq2File: StdString,
                                seq1File': StdString, seq2File': StdString)
    ensures ChainingInputName(strand, seq1File, seq2File) != SearchOutputName(strand', true, seq1File', seq2File')
  {
    ChainingReadsSearchOutput(strand, seq1File, seq2File);
    var prefix := SearchPrefix(strand, false);
    var prefix' := SearchPrefix(strand', true);
    var i: nat;
    if strand != strand' {
      assert prefix[11] != prefix'[11];
      i := 11;
    } else if strand == Forward {
      assert prefix[19] == 'f' && prefix'[19] == 's';
      i := 19;
    } else {
      assert prefix[20] == 'f' && prefix'[20] == 's';
      i := 20;
    }
    PrefixDecides(prefix, PairSuffix(seq1File, seq2File), prefix', PairSuffix(seq1File', seq2File'), i);
  }

  /** The forward and backward tables of a search never share a name, so neither overwrites the other. */
  lemma StrandTablesDistinct(startPos: bool, startPos': bool, seq1File: StdString, seq2File: StdString,
                             seq1File': StdString, seq2File': StdString)
    ensures SearchOutputName(Forward, startPos, seq1File, seq2File)
         != SearchOutputName(Backward, startPos', seq1File', seq2File')
  {
    assert SearchPrefix(Forward, startPos)[11] == 'f';
    assert SearchPrefix(Backward, startPos')[11] == 'b';
    PrefixDecides(SearchPrefix(Forward, startPos), PairSuffix(seq1File, seq2File),
                  SearchPrefix(Backward, startPos'), PairSuffix(seq1File', seq2File'), 11);
  }

  /** The chain table never has the name of an anchor table, so writing it cannot clobber an input. */
  lemma ChainsFileIsNotAnAnchorTable(strand: Strand, startPos: bool, seq1File: StdString, seq2File: StdString,
                                     seq1File': StdString, seq2File': StdString)
    ensures ChainsFileName(seq1File, seq2File) != SearchOutputName(strand, startPos, seq1File', seq2File')
  {
    PrefixDecides("chains_", PairSuffix(seq1File, seq2File),
                  SearchPrefix(strand, startPos), PairSuffix(seq1File', seq2File'), 0);
  }

  /** The part taken from the paths has no `/` and ends in `.tsv`. */
  lemma PairSuffixShape(seq1File: StdString, seq2File: StdString)
    ensures var suffix := PairSuffix(seq1File, seq2File);
            '/' !in suffix && |suffix| >= 4 && suffix[|suffix| - 4..] == ".tsv"
  {
    var suffix := PairSuffix(seq1File, seq2File);
    assert suffix[|suffix| - 4..] == ".tsv";
  }

  /**
   * Every intermediate file is a `.tsv` file in the working directory,
   * wherever the two sequence files lie: no name has a `/`.
   */
  lemma TablesInWorkingDirectory(strand: Strand, startPos: bool, seq1File: StdString, seq2File: StdString)
    ensures LocalTsv(SearchOutputName(strand, startPos, seq1File, seq2File))
    ensures LocalTsv(ChainingInputName(strand, seq1File, seq2File))
    ensures LocalTsv(ChainsFileName(seq1File, seq2File))
  {
    var suffix := PairSuffix(seq1File, seq2File);
    PairSuffixShape(seq1File, seq2File);
    PrefixesSlashFree(strand, startPos);
    LocalTsvJoin(SearchPrefix(strand, startPos), suffix);
    ChainingReadsSearchOutput(strand, seq1File, seq2File);
    PrefixesSlashFree(strand, false);
    LocalTsvJoin(SearchPrefix(strand, false), suffix);
    LocalTsvJoin("chains_", suffix);
  }

  /** A file name without a directory part and with the `.tsv` extension. */
  predicate LocalTsv(name: string)
  {
    '/' !in name && |name| >= 4 && name[|name| - 4..] == ".tsv"
  }

  /** The literal prefixes hold no `/`. */
  lemma PrefixesSlashFree(strand: Strand, startPos: bool)
    ensures '/' !in SearchPrefix(strand, startPos) && '/' !in "chains_"
  {
  }

  /** A prefix without `/` before a local `.tsv` name keeps it a local `.tsv` name. */
  lemma LocalTsvJoin(prefix: string, suffix: string)
    requires '/' !in prefix && LocalTsv(suffix)
    ensures LocalTsv(prefix + suffix)
  {
    var name := prefix + suffix;
    assert name[|name| - 4..] == suffix[|suffix| - 4..];
  }

  /**
   * Both header lines are `#` comments, and each is a single line when
   * neither path holds a newline.
   */
  lemma HeadersAreCommentLines(seq1File: StdString, seq2File: StdString)
    ensures |SearchHeader(seq1File, seq2File)| == |seq1File| + |seq2File| + 2
    ensures SearchHeader(seq1File, seq2File)[0] == '#' && ChainsHeader(seq1File, seq2File)[0] == '#'
    ensures '\n' !in seq1File && '\n' !in seq2File ==>
              '\n' !in SearchHeader(seq1File, seq2File) && '\n' !in ChainsHeader(seq1File, seq2File)
  {
    if '\n' !in seq1File && '\n' !in seq2File {
      BasenameKeepsOut(seq1File, '\n');
      BasenameKeepsOut(seq2File, '\n');
    }
  }

  /**
   * Names join the two base names with `_`, so two different pairs of
   * sequence files can share their tables: `a_b` with `c` and `a` with
   * `b_c` write, and read, the same files.
   */
  lemma UnderscoreJoinCollides(strand: Strand, startPos: bool)
    ensures SearchOutputName(strand, startPos, "a_b", "c") == SearchOutputName(strand, startPos, "a", "b_c")
    ensures ChainsFileName("a_b", "c") == ChainsFileName("a", "b_c")
  {
    PairSuffixWithoutSlash("a_b", "c");
    PairSuffixWithoutSlash("a", "b_c");
    NamesFollowPairSuffix(strand, startPos, "a_b", "c", "a", "b_c");
  }

  /** Every name is decided by its literal prefix and the pair suffix of the two paths. */
  lemma NamesFollowPairSuffix(strand: Strand, startPos: bool, seq1File: StdString, seq2File: StdString,
                              seq1File': StdString, seq2File': StdString)
    requires PairSuffix(seq1File, seq2File) == PairSuffix(seq1File', seq2File')
    ensures SearchOutputName(strand, startPos, seq1File, seq2File)
         == SearchOutputName(strand, startPos, seq1File', seq2File')
    ensures ChainsFileName(seq1File, seq2File) == ChainsFileName(seq1File', seq2File')
  {
  }

  /** For paths without a slash, the pair suffix joins the paths themselves. */
  lemma PairSuffixWithoutSlash(seq1File: StdString, seq2File: StdString)
    requires '/' !in seq1File && '/' !in seq2File
    ensures PairSuffix(seq1File, seq2File) == seq1File + "_" + seq2File + ".tsv"
  {
    BasenameWithoutSlash(seq1File);
    BasenameWithoutSlash(seq2File);
  }

  /** Two names whose literal prefixes differ at a position inside both prefixes are different. */
  lemma PrefixDecides(prefix: string, rest: string, prefix': string, rest': string, i: nat)
    requires i < |prefix| && i < |prefix'| && prefix[i] != prefix'[i]
    ensures prefix + rest != prefix' + rest'
  {
    assert (prefix + rest)[i] == prefix[i];
    assert (prefix' + rest')[i] == prefix'[i];
  }
}
