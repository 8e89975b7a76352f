/**
 * The two option loops of the driver. Each walks the tokens after the two
 * file names, looks only at the second character of a token (`argv[i][1]`;
 * the first one is never tested, so `xk` acts as `-k`),
 * and for a flag that takes a value consumes the next token with `++i`.
 * `atoi` is a parameter.
 */
module Options {

  /**
   * `argv[i][1]`: the character a flag test compares. A one-character token
   * has its NUL there. Tokens are character strings while `argv` holds their
   * UTF-8 bytes: byte 1 is the second character only when the first one is
   * ASCII; otherwise it is a continuation byte, which is no flag letter, and
   * the result is NUL.
   */
  function FlagChar(token: string): (c: char)
    ensures |token| >= 2 && token[0] < '\U{80}' ==> c == token[1]
    ensures c != '\0' ==> |token| >= 2 && token[0] < '\U{80}' && token[1] == c
  {
    if |token| >= 2 && token[0] < '\U{80}' then token[1] else '\0'
  }

  // ---------------------------------------------------------------- the bytes `argv` holds

  /** The UTF-8 encoding of one character. */
  function CharBytes(ch: char): (bytes: seq<int>)
  {
    var v := ch as int;
    if v < 0x80 then [v]
    else if v < 0x800 then [0xC0 + v / 0x40, 0x80 + v % 0x40]
    else if v < 0x1_0000 then [0xE0 + v / 0x1000, 0x80 + (v / 0x40) % 0x40, 0x80 + v % 0x40]
    else [0xF0 + v / 0x4_0000, 0x80 + (v / 0x1000) % 0x40, 0x80 + (v / 0x40) % 0x40, 0x80 + v % 0x40]
  }

  /** The bytes of a token as `argv` holds them, without the terminating NUL. */
  function Utf8(s: string): (bytes: seq<int>)
  {
    if s == [] then [] else CharBytes(s[0]) + Utf8(s[1..])
  }

  /** `argv[i][1]`: byte 1 of the NUL-terminated token. */
  function Byte1(token: string): (b: int)
    requires |token| >= 1
  {
    var bytes := Utf8(token) + [0];
    assert |CharBytes(token[0])| >= 1;
    bytes[1]
  }

  /** The first byte of a character that is not ASCII is a lead byte, at least 0xC0; its second is a continuation byte, at least 0x80. */
  lemma NonAsciiBytes(ch: char)
    requires ch >= '\U{80}'
    ensures |CharBytes(ch)| >= 2 && CharBytes(ch)[0] >= 0xC0 && CharBytes(ch)[1] >= 0x80
  {
  }

  /**
   * The flag test on characters agrees with the test on bytes: for every
   * ASCII letter a flag can be, `FlagChar` is that letter exactly when
   * byte 1 of the token's UTF-8 encoding is.
   */
  lemma FlagCharIsByte1(token: string, c: char)
    requires |token| >= 1 && '\0' < c < '\U{80}'
    ensures FlagChar(token) == c <==> Byte1(token) == c as int
  {
    var rest := Utf8(token[1..]);
    assert Utf8(token) == CharBytes(token[0]) + rest;
    if token[0] < '\U{80}' {
      assert Byte1(token) == (rest + [0])[0];
      if |token| >= 2 {
        assert rest == CharBytes(token[1]) + Utf8(token[2..]);
        if token[1] >= '\U{80}' {
          NonAsciiBytes(token[1]);
        }
      }
    } else {
      NonAsciiBytes(token[0]);
      assert Byte1(token) == CharBytes(token[0])[1];
    }
  }

  /** Index of the token the loop examines after token `i`: a value flag also consumes the next one. */
  function NextIndex(args: seq<string>, i: nat, valueFlags: set<char>): (r: nat)
    requires i < |args|
  {
    if FlagChar(args[i]) in valueFlags then i + 2 else i + 1
  }

  /**
   * Every value flag the loop reaches from token `i` has a token after it.
   * Without one, `argv[++i]` is the null pointer and `atoi` is undefined.
   */
  predicate ValuesPresent(args: seq<string>, i: nat, valueFlags: set<char>)
    decreases |args| - i
  {
    i < |args| ==>
      (FlagChar(args[i]) in valueFlags ==> i + 1 < |args|) &&
      ValuesPresent(args, NextIndex(args, i, valueFlags), valueFlags)
  }

  /** The loop, started at token `i`, examines a token whose flag character is `c`. */
  predicate Reaches(args: seq<string>, i: nat, valueFlags: set<char>, c: char)
    decreases |args| - i
  {
    i < |args| &&
    (FlagChar(args[i]) == c || Reaches(args, NextIndex(args, i, valueFlags), valueFlags, c))
  }

  /** Token `p` is one the loop, started at token `i`, examines as a flag (not one it consumes as a value). */
  predicate OnPath(args: seq<string>, i: nat, valueFlags: set<char>, p: nat)
    decreases |args| - i
  {
    i < |args| &&
    (p == i || OnPath(args, NextIndex(args, i, valueFlags), valueFlags, p))
  }

  // ---------------------------------------------------------------- search

  datatype SearchOptions = SearchOptions(
    k: int,                 // -k: k-mer length
    bwtInterval: int,       // -i: sampling interval of the BWT index
    slideLetters: int,      // -l: step between query k-mers
    maxNumMatches: int,     // -m: matches reported per k-mer
    searchForward: bool,    // cleared by -b
    searchBackward: bool,   // cleared by -f
    outputsStartPos: bool)  // set by -s

  /** The settings `search_alignment` starts from. */
  function DefaultSearchOptions(): (o: SearchOptions)
  {
    SearchOptions(k := 15, bwtInterval := 1, slideLetters := 1, maxNumMatches := 1000000000,
                  searchForward := true, searchBackward := true, outputsStartPos := false)
  }

  const SearchValueFlags: set<char> := {'k', 'l', 'm', 'i'}

  /** The setting a value flag of the search loop controls. */
  function SearchValue(o: SearchOptions, f: char): (r: int)
    requires f in SearchValueFlags
  {
    if f == 'k' then o.k
    else if f == 'l' then o.slideLetters
    else if f == 'm' then o.maxNumMatches
    else o.bwtInterval
  }

  function SetSearchValue(o: SearchOptions, f: char, v: int): (r: SearchOptions)
    requires f in SearchValueFlags
  {
    if f == 'k' then o.(k := v)
    else if f == 'l' then o.(slideLetters := v)
    else if f == 'm' then o.(maxNumMatches := v)
    else o.(bwtInterval := v)
  }

  /** The search option loop from token `i` on, with the settings `o` reached so far. */
  function SearchFrom(args: seq<string>, i: nat, o: SearchOptions, atoi: string -> int): (r: SearchOptions)
    requires ValuesPresent(args, i, SearchValueFlags)
    decreases |args| - i
  {
    if i >= |args| then o
    else
      var f := FlagChar(args[i]);
      if f in SearchValueFlags then SearchFrom(args, i + 2, SetSearchValue(o, f, atoi(args[i + 1])), atoi)
      else if f == 'f' then SearchFrom(args, i + 1, o.(searchBackward := false), atoi)
      else if f == 'b' then SearchFrom(args, i + 1, o.(searchForward := false), atoi)
      else if f == 's' then SearchFrom(args, i + 1, o.(outputsStartPos := true), atoi)
      else SearchFrom(args, i + 1, o, atoi)
  }

  /** The settings `search_alignment` runs with: options start at `argv[3]`. */
  function ParseSearch(args: seq<string>, atoi: string -> int): (r: SearchOptions)
    requires ValuesPresent(args, 3, SearchValueFlags)
  {
    SearchFrom(args, 3, DefaultSearchOptions(), atoi)
  }

  /** The option loop of `search_alignment`. */
  method ParseSearchOptions(args: seq<string>, atoi: string -> int) returns (o: SearchOptions)
    requires ValuesPresent(args, 3, SearchValueFlags)
    ensures o == ParseSearch(args, atoi)
  {
    o := DefaultSearchOptions();
    var i := 3;
    while i < |args|
      invariant 3 <= i
      invariant ValuesPresent(args, i, SearchValueFlags)
      invariant SearchFrom(args, i, o, atoi) == ParseSearch(args, atoi)
      decreases |args| - i
    {
      var f := FlagChar(args[i]);
      if f == 'k' {
        i := i + 1;
        o := o.(k := atoi(args[i]));
      } else if f == 'l' {
        i := i + 1;
        o := o.(slideLetters := atoi(args[i]));
      } else if f == 'm' {
        i := i + 1;
        o := o.(maxNumMatches := atoi(args[i]));
      } else if f == 'i' {
        i := i + 1;
        o := o.(bwtInterval := atoi(args[i]));
      } else if f == 'f' {
        o := o.(searchBackward := false);
      } else if f == 'b' {
        o := o.(searchForward := false);
      } else if f == 's' {
        o := o.(outputsStartPos := true);
      }
      i := i + 1;
    }
  }

  /**
   * The strand and output switches: forward search stays on exactly when no
   * examined token is `-b`, backward search exactly when none is `-f`, and
   * start positions are written exactly when some examined token is `-s`.
   */
  lemma {:induction false} SearchSwitches(args: seq<string>, i: nat, o: SearchOptions, atoi: string -> int)
    requires ValuesPresent(args, i, SearchValueFlags)
    ensures SearchFrom(args, i, o, atoi).searchForward
            == (o.searchForward && !Reaches(args, i, SearchValueFlags, 'b'))
    ensures SearchFrom(args, i, o, atoi).searchBackward
            == (o.searchBackward && !Reaches(args, i, SearchValueFlags, 'f'))
    ensures SearchFrom(args, i, o, atoi).outputsStartPos
            == (o.outputsStartPos || Reaches(args, i, SearchValueFlags, 's'))
    decreases |args| - i
  {
    if i < |args| {
      var f := FlagChar(args[i]);
      var next := NextIndex(args, i, SearchValueFlags);
      if f in SearchValueFlags {
        SearchSwitches(args, next, SetSearchValue(o, f, atoi(args[i + 1])), atoi);
      } else if f == 'f' {
        SearchSwitches(args, next, o.(searchBackward := false), atoi);
      } else if f == 'b' {
        SearchSwitches(args, next, o.(searchForward := false), atoi);
      } else if f == 's' {
        SearchSwitches(args, next, o.(outputsStartPos := true), atoi);
      } else {
        SearchSwitches(args, next, o, atoi);
      }
    }
  }

  /**
   * A numeric search setting keeps its value when its flag is never
   * examined; otherwise it is `atoi` of the token after the last examined
   * occurrence of its flag.
   */
  lemma {:induction false} SearchValueOrigin(args: seq<string>, i: nat, o: SearchOptions, atoi: string -> int, f: char)
    requires ValuesPresent(args, i, SearchValueFlags) && f in SearchValueFlags
    ensures !Reaches(args, i, SearchValueFlags, f) ==>
              SearchValue(SearchFrom(args, i, o, atoi), f) == SearchValue(o, f)
    ensures Reaches(args, i, SearchValueFlags, f) ==>
              exists p: nat :: OnPath(args, i, SearchValueFlags, p) && p + 1 < |args| && FlagChar(args[p]) == f
                && !Reaches(args, p + 2, SearchValueFlags, f)
                && SearchValue(SearchFrom(args, i, o, atoi), f) == atoi(args[p + 1])
    decreases |args| - i
  {
    if i < |args| {
      var g := FlagChar(args[i]);
      var next := NextIndex(args, i, SearchValueFlags);
      var o' :=
        if g in SearchValueFlags then SetSearchValue(o, g, atoi(args[i + 1]))
        else if g == 'f' then o.(searchBackward := false)
        else if g == 'b' then o.(searchForward := false)
        else if g == 's' then o.(outputsStartPos := true)
        else o;
      assert SearchFrom(args, i, o, atoi) == SearchFrom(args, next, o', atoi);
      SearchValueOrigin(args, next, o', atoi, f);
      if Reaches(args, next, SearchValueFlags, f) {
        var p: nat :| OnPath(args, next, SearchValueFlags, p) && p + 1 < |args| && FlagChar(args[p]) == f
                 && !Reaches(args, p + 2, SearchValueFlags, f)
                 && SearchValue(SearchFrom(args, next, o', atoi), f) == atoi(args[p + 1]);
        assert OnPath(args, i, SearchValueFlags, p);
      } else if g == f {
        assert OnPath(args, i, SearchValueFlags, i);
      }
    }
  }

  // ---------------------------------------------------------------- chaining

  datatype ChainOptions = ChainOptions(
    nearDist: int,        // -n: proximity threshold of the chainer
    runsForward: bool,    // cleared by -b
    runsBackward: bool)   // cleared by -f

  /** The settings `chain_alignment` starts from. */
  function DefaultChainOptions(): (o: ChainOptions)
  {
    ChainOptions(nearDist := 50, runsForward := true, runsBackward := true)
  }

  const ChainValueFlags: set<char> := {'n'}

  /** The chaining option loop from token `i` on, with the settings `o` reached so far. */
  function ChainFrom(args: seq<string>, i: nat, o: ChainOptions, atoi: string -> int): (r: ChainOptions)
    requires ValuesPresent(args, i, ChainValueFlags)
    decreases |args| - i
  {
    if i >= |args| then o
    else
      var f := FlagChar(args[i]);
      if f == 'n' then ChainFrom(args, i + 2, o.(nearDist := atoi(args[i + 1])), atoi)
      else if f == 'f' then ChainFrom(args, i + 1, o.(runsBackward := false), atoi)
      else if f == 'b' then ChainFrom(args, i + 1, o.(runsForward := false), atoi)
      else ChainFrom(args, i + 1, o, atoi)
  }

  /** The settings `chain_alignment` runs with: options start at `argv[3]`. */
  function ParseChain(args: seq<string>, atoi: string -> int): (r: ChainOptions)
    requires ValuesPresent(args, 3, ChainValueFlags)
  {
    ChainFrom(args, 3, DefaultChainOptions(), atoi)
  }

  /** The option loop of `chain_alignment`. */
  method ParseChainOptions(args: seq<string>, atoi: string -> int) returns (o: ChainOptions)
    requires ValuesPresent(args, 3, ChainValueFlags)
    ensures o == ParseChain(args, atoi)
  {
    o := DefaultChainOptions();
    var i := 3;
    while i < |args|
      invariant 3 <= i
      invariant ValuesPresent(args, i, ChainValueFlags)
      invariant ChainFrom(args, i, o, atoi) == ParseChain(args, atoi)
      decreases |args| - i
    {
      var f := FlagChar(args[i]);
      if f == 'n' {
        i := i + 1;
        o := o.(nearDist := atoi(args[i]));
      } else if f == 'f' {
        o := o.(runsBackward := false);
      } else if f == 'b' {
        o := o.(runsForward := false);
      }
      i := i + 1;
    }
  }

  /** Chaining runs forward exactly when no examined token is `-b`, backward exactly when none is `-f`. */
  lemma {:induction false} ChainSwitches(args: seq<string>, i: nat, o: ChainOptions, atoi: string -> int)
    requires ValuesPresent(args, i, ChainValueFlags)
    ensures ChainFrom(args, i, o, atoi).runsForward == (o.runsForward && !Reaches(args, i, ChainValueFlags, 'b'))
    ensures ChainFrom(args, i, o, atoi).runsBackward == (o.runsBackward && !Reaches(args, i, ChainValueFlags, 'f'))
    decreases |args| - i
  {
    if i < |args| {
      var f := FlagChar(args[i]);
      var next := NextIndex(args, i, ChainValueFlags);
      if f == 'n' {
        ChainSwitches(args, next, o.(nearDist := atoi(args[i + 1])), atoi);
      } else if f == 'f' {
        ChainSwitches(args, next, o.(runsBackward := false), atoi);
      } else if f == 'b' {
        ChainSwitches(args, next, o.(runsForward := false), atoi);
      } else {
        ChainSwitches(args, next, o, atoi);
      }
    }
  }

  /**
   * `near_dist` keeps its value when `-n` is never examined; otherwise it is
   * `atoi` of the token after the last examined `-n`.
   */
  lemma {:induction false} NearDistOrigin(args: seq<string>, i: nat, o: ChainOptions, atoi: string -> int)
    requires ValuesPresent(args, i, ChainValueFlags)
    ensures !Reaches(args, i, ChainValueFlags, 'n') ==> ChainFrom(args, i, o, atoi).nearDist == o.nearDist
    ensures Reaches(args, i, ChainValueFlags, 'n') ==>
              exists p: nat :: OnPath(args, i, ChainValueFlags, p) && p + 1 < |args| && FlagChar(args[p]) == 'n'
                && !Reaches(args, p + 2, ChainValueFlags, 'n')
                && ChainFrom(args, i, o, atoi).nearDist == atoi(args[p + 1])
    decreases |args| - i
  {
    if i < |args| {
      var g := FlagChar(args[i]);
      var next := NextIndex(args, i, ChainValueFlags);
      var o' :=
        if g == 'n' then o.(nearDist := atoi(args[i + 1]))
        else if g == 'f' then o.(runsBackward := false)
        else if g == 'b' then o.(runsForward := false)
        else o;
      assert ChainFrom(args, i, o, atoi) == ChainFrom(args, next, o', atoi);
      NearDistOrigin(args, next, o', atoi);
      if Reaches(args, next, ChainValueFlags, 'n') {
        var p: nat :| OnPath(args, next, ChainValueFlags, p) && p + 1 < |args| && FlagChar(args[p]) == 'n'
                 && !Reaches(args, p + 2, ChainValueFlags, 'n')
                 && ChainFrom(args, next, o', atoi).nearDist == atoi(args[p + 1]);
        assert OnPath(args, i, ChainValueFlags, p);
      } else if g == 'n' {
        assert OnPath(args, i, ChainValueFlags, i);
      }
    }
  }
}
