/**
 * Turning a FASTA file into the encoded arrays the index and the queries
 * work on: skip the header line, read every non-whitespace character,
 * encode it, and append a 0 sentinel. Also the narrowing from `int` to
 * `int8_t` that the driver performs when it keeps the reference sequence.
 */
module Encoding {
  import opened Outcomes

  /** The C++ `int8_t`. */
  newtype Int8 = x: int | -128 <= x < 128

  /**
   * Conversion of an `int` to `int8_t`: the two's-complement value that is
   * congruent to `x` modulo 256 (the narrowing every supported compiler performs).
   */
  function Narrow(x: int): (r: Int8)
    ensures (r as int - x) % 256 == 0
  {
    ((x + 128) % 256 - 128) as Int8
  }

  /** Values that fit in `int8_t` come through the narrowing unchanged. */
  lemma NarrowKeepsSmallValues(x: int)
    requires -128 <= x < 128
    ensures Narrow(x) as int == x
  {
  }

  /** Two values of `int8_t` that agree modulo 256 are equal. */
  lemma CongruentInt8Equal(a: Int8, b: Int8)
    requires (a as int - b as int) % 256 == 0
    ensures a == b
  {
  }

  /** The characters `operator>>` skips in the "C" locale: space, and tab through carriage return. */
  predicate IsSpace(ch: char)
  {
    ch == ' ' || '\t' <= ch <= '\r'
  }

  /** How many characters `getline` consumes: the header line and its newline, or the whole text without one. */
  function HeaderLength(text: string): (n: nat)
    ensures n <= |text|
    ensures '\n' !in text ==> n == |text|
  {
    if text == [] then 0
    else if text[0] == '\n' then 1
    else 1 + HeaderLength(text[1..])
  }

  /** What is left of the file after `getline` has consumed the header line. */
  function AfterHeader(text: string): (r: string)
  {
    text[HeaderLength(text)..]
  }

  /** With a newline in the file, the header ends at the first one. */
  lemma {:induction false} HeaderEndsAtFirstNewline(text: string)
    requires '\n' in text
    ensures var n := HeaderLength(text);
            1 <= n && text[n - 1] == '\n' && '\n' !in text[..n - 1]
  {
    if text[0] != '\n' {
      var rest := text[1..];
      assert '\n' in rest by {
        assert text == [text[0]] + rest;
      }
      HeaderEndsAtFirstNewline(rest);
      var m := HeaderLength(rest);
      assert text[..m] == [text[0]] + rest[..m - 1];
    }
  }

  /** The characters of `s` that are not whitespace, in order. */
  function NonSpace(s: string): (r: string)
    ensures |r| <= |s|
  {
    if s == [] then []
    else
      var init := NonSpace(s[..|s| - 1]);
      assert s == s[..|s| - 1] + [s[|s| - 1]];
      if IsSpace(s[|s| - 1]) then init else init + [s[|s| - 1]]
  }

  /** A character is a residue exactly when it occurs in the text and is not whitespace. */
  lemma {:induction false} NonSpaceMembers(s: string, ch: char)
    ensures ch in NonSpace(s) <==> ch in s && !IsSpace(ch)
    decreases |s|
  {
    if s != [] {
      NonSpaceMembers(s[..|s| - 1], ch);
      assert s == s[..|s| - 1] + [s[|s| - 1]];
    }
  }

  /** Dropping whitespace distributes over concatenation. */
  lemma {:induction false} NonSpaceAppend(a: string, b: string)
    ensures NonSpace(a + b) == NonSpace(a) + NonSpace(b)
    decreases |b|
  {
    if b != [] {
      var b' := b[..|b| - 1];
      assert (a + b)[..|a + b| - 1] == a + b';
      NonSpaceAppend(a, b');
    } else {
      assert a + b == a;
    }
  }

  /** One more character read: the residues so far grow by it unless it is whitespace, and stay within all residues. */
  lemma NonSpaceStep(s: string, p: nat)
    requires p < |s|
    ensures NonSpace(s[..p + 1])
         == if IsSpace(s[p]) then NonSpace(s[..p]) else NonSpace(s[..p]) + [s[p]]
    ensures |NonSpace(s[..p + 1])| <= |NonSpace(s)|
  {
    assert s[..p + 1][..p] == s[..p];
    NonSpaceAppend(s[..p + 1], s[p + 1..]);
    assert s[..p + 1] + s[p + 1..] == s;
  }

  /** The residues `operator>>` delivers after the header: every non-whitespace character. */
  function Residues(text: string): (r: string)
  {
    NonSpace(AfterHeader(text))
  }

  /** `encode_char` applied to every character. */
  function EncodeAll(s: string, encode: char -> int): (codes: seq<int>)
  {
    seq(|s|, i requires 0 <= i < |s| => encode(s[i]))
  }

  /** `(int8_t)` applied to every element. */
  function NarrowAll(s: seq<int>): (narrowed: seq<Int8>)
  {
    seq(|s|, i requires 0 <= i < |s| => Narrow(s[i]))
  }

  /**
   * Narrowing keeps the sentinel: the target read as `int` codes and then
   * copied to `int8_t` has the shape the `int8_t` reader builds directly.
   */
  lemma NarrowKeepsSentinel(codes: seq<int>)
    ensures NarrowAll(codes + [0]) == NarrowAll(codes) + [0]
  {
    NarrowKeepsSmallValues(0);
    assert NarrowAll(codes + [0])[|codes|] == 0;
  }

  /** Encoding one more character appends its code. */
  lemma EncodeAllAppend(s: string, c: char, encode: char -> int)
    ensures EncodeAll(s + [c], encode) == EncodeAll(s, encode) + [encode(c)]
  {
  }

  /** Narrowing one more code appends its narrowed value. */
  lemma NarrowAllAppend(s: seq<int>, x: int)
    ensures NarrowAll(s + [x]) == NarrowAll(s) + [Narrow(x)]
  {
  }

  /**
   * `read_fasta_and_create_int_array`: count the residues, allocate one more
   * cell, encode the residues into it through a moving write position and
   * store the 0 sentinel last. The file system is the map `fasta`.
   */
  method ReadFastaIntArray(fasta: map<string, string>, file: string, encode: char -> int)
    returns (r: Result<array<int>>)
    ensures file !in fasta ==> r == Err(NotFound(file))
    ensures file in fasta ==> r.Ok? && r.value[..] == EncodeAll(Residues(fasta[file]), encode) + [0]
  {
    if file !in fasta {
      return Err(NotFound(file));
    }
    var body := AfterHeader(fasta[file]);
    var size := CountResidues(body);
    size := size + 1;
    var s := new int[size];
    var w := WriteCodes(s, body, encode);
    s[w] := 0;
    assert s[..] == s[..w] + [0];
    return Ok(s);
  }

  /** One more character of the second pass: the codes written so far grow by its code unless it is whitespace. */
  lemma CodesStep(body: string, p: nat, encode: char -> int)
    requires p < |body|
    ensures EncodeAll(NonSpace(body[..p + 1]), encode)
         == EncodeAll(NonSpace(body[..p]), encode) + if IsSpace(body[p]) then [] else [encode(body[p])]
    ensures |NonSpace(body[..p + 1])| <= |NonSpace(body)|
  {
    NonSpaceStep(body, p);
    if !IsSpace(body[p]) {
      EncodeAllAppend(NonSpace(body[..p]), body[p], encode);
    }
  }

  /** The second pass of the `int` reader: `while (ifs >> buf) *p++ = encode_char(buf)`. */
  method WriteCodes(s: array<int>, body: string, encode: char -> int) returns (w: int)
    requires |NonSpace(body)| < s.Length
    modifies s
    ensures w == |NonSpace(body)| && s[..w] == EncodeAll(NonSpace(body), encode)
    ensures forall t :: w <= t < s.Length ==> s[t] == old(s[t])
  {
    var p := 0;
    w := 0;
    ghost var codes: seq<int> := [];
    while p < |body|
      invariant p <= |body|
      invariant codes == EncodeAll(NonSpace(body[..p]), encode)
      invariant w == |codes| && w < s.Length
      invariant s[..w] == codes
      invariant forall t :: w <= t < s.Length ==> s[t] == old(s[t])
    {
      CodesStep(body, p, encode);
      if !IsSpace(body[p]) {
        s[w] := encode(body[p]);
        codes := codes + [encode(body[p])];
        assert s[..w + 1] == codes;
        w := w + 1;
      }
      p := p + 1;
    }
    assert body[..p] == body;
  }

  /**
   * `read_fasta_and_create_int8_t_array`: the same shape as the `int`
   * version, each code narrowed to `int8_t` as it is stored.
   */
  method ReadFastaInt8Array(fasta: map<string, string>, file: string, encode: char -> int)
    returns (r: Result<array<Int8>>)
    ensures file !in fasta ==> r == Err(NotFound(file))
    ensures file in fasta ==> r.Ok? && r.value[..] == NarrowAll(EncodeAll(Residues(fasta[file]), encode)) + [0]
  {
    if file !in fasta {
      return Err(NotFound(file));
    }
    var body := AfterHeader(fasta[file]);
    var size := CountResidues(body);
    size := size + 1;
    var s := new Int8[size];
    var w := WriteNarrowedCodes(s, body, encode);
    s[w] := 0;
    assert s[..] == s[..w] + [0];
    return Ok(s);
  }

  /** The second pass of the `int8_t` reader: `while (ifs >> buf) *p++ = (int8_t)encode_char(buf)`. */
  method WriteNarrowedCodes(s: array<Int8>, body: string, encode: char -> int) returns (w: int)
    requires |NonSpace(body)| < s.Length
    modifies s
    ensures w == |NonSpace(body)| && s[..w] == NarrowAll(EncodeAll(NonSpace(body), encode))
    ensures forall t :: w <= t < s.Length ==> s[t] == old(s[t])
  {
    var p := 0;
    w := 0;
    ghost var codes: seq<Int8> := [];
    while p < |body|
      invariant p <= |body|
      invariant codes == NarrowAll(EncodeAll(NonSpace(body[..p]), encode))
      invariant w == |codes| && w < s.Length
      invariant s[..w] == codes
      invariant forall t :: w <= t < s.Length ==> s[t] == old(s[t])
    {
      CodesStep(body, p, encode);
      if !IsSpace(body[p]) {
        NarrowAllAppend(EncodeAll(NonSpace(body[..p]), encode), encode(body[p]));
        s[w] := Narrow(encode(body[p]));
        codes := codes + [Narrow(encode(body[p]))];
        assert s[..w + 1] == codes;
        w := w + 1;
      }
      p := p + 1;
    }
    assert body[..p] == body;
  }

  /** The first pass of both readers: `while (ifs >> buf) size++`. */
  method CountResidues(body: string) returns (size: int)
    ensures size == |NonSpace(body)|
  {
    size := 0;
    var p := 0;
    while p < |body|
      invariant p <= |body|
      invariant size == |NonSpace(body[..p])|
    {
      NonSpaceStep(body, p);
      if !IsSpace(body[p]) {
        size := size + 1;
      }
      p := p + 1;
    }
    assert body[..p] == body;
  }

  /**
   * `copy_int_array_to_int8_t_array`: cells `0 .. size-1` of `int8Array`
   * receive the narrowed values of `intArray`; no other cell changes.
   */
  method CopyIntToInt8(intArray: array<int>, int8Array: array<Int8>, size: int)
    requires size <= intArray.Length && size <= int8Array.Length
    modifies int8Array
    ensures forall i :: 0 <= i < size ==> int8Array[i] == Narrow(intArray[i])
    ensures forall i :: 0 <= i < int8Array.Length && !(0 <= i < size) ==> int8Array[i] == old(int8Array[i])
  {
    var i := 0;
    while i < size
      invariant 0 <= i <= if size < 0 then 0 else size
      invariant forall j :: 0 <= j < i ==> int8Array[j] == Narrow(intArray[j])
      invariant forall j :: i <= j < int8Array.Length ==> int8Array[j] == old(int8Array[j])
    {
      int8Array[i] := Narrow(intArray[i]);
      i := i + 1;
    }
  }
}
