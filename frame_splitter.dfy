/**
 * The video frame source (src/frame_splitter.rs), for the parts that are
 * computation: parsing the `WxH` line the probe prints, setting up the
 * splitter's fields, and the size of each raw RGBA frame.
 *
 * Running the probe and the decoder are external processes; their outcome is
 * passed in (the probe's standard output, or `None` when it could not be run;
 * whether the decoder started; the bytes its pipe delivers).
 */
module FrameSplitting {
  import opened Wrappers
  import opened Numeric

  /**
   * How construction can fail: an I/O error returned through `?`, or a panic
   * from an `unwrap` (or an arithmetic overflow) that ends the program.
   */
  datatype Failure = IoError | Panic

  datatype FrameSplitter = FrameSplitter(path: string, frameIndex: nat, width: nat, height: nat)

  // ---------------------------------------------------------------- trimming

  /** Rust's `char::is_whitespace`: the Unicode White_Space property. */
  predicate IsWhitespace(c: char) {
    var u := c as int;
    (0x09 <= u <= 0x0D) || u == 0x20 || u == 0x85 || u == 0xA0 || u == 0x1680
    || (0x2000 <= u <= 0x200A) || u == 0x2028 || u == 0x2029 || u == 0x202F
    || u == 0x205F || u == 0x3000
  }

  function TrimStart(s: string): (r: string)
    ensures |r| <= |s| && r == s[|s| - |r|..]
    ensures r == [] || !IsWhitespace(r[0])
    ensures forall i :: 0 <= i < |s| - |r| ==> IsWhitespace(s[i])
  {
    if s == [] || !IsWhitespace(s[0]) then s else TrimStart(s[1..])
  }

  function TrimEnd(s: string): (r: string)
    ensures |r| <= |s| && r == s[..|r|]
    ensures r == [] || !IsWhitespace(r[|r| - 1])
    ensures forall i :: |r| <= i < |s| ==> IsWhitespace(s[i])
  {
    if s == [] || !IsWhitespace(s[|s| - 1]) then s else TrimEnd(s[..|s| - 1])
  }

  /**
   * `str::trim`: leading and trailing whitespace removed. The result neither
   * starts nor ends with whitespace, and a string that already does not is
   * returned as it is.
   */
  function Trim(s: string): (r: string)
    ensures |r| <= |s|
    ensures r == [] || (!IsWhitespace(r[0]) && !IsWhitespace(r[|r| - 1]))
    ensures s == [] || (!IsWhitespace(s[0]) && !IsWhitespace(s[|s| - 1])) ==> r == s
  {
    TrimEnd(TrimStart(s))
  }

  /** Every character of `s` before `i` and from `j` on is whitespace. */
  ghost predicate WhitespaceOutside(s: string, i: nat, j: nat) {
    && i <= j <= |s|
    && (forall k :: 0 <= k < i ==> IsWhitespace(s[k]))
    && (forall k :: j <= k < |s| ==> IsWhitespace(s[k]))
  }

  /**
   * What `Trim` keeps: one contiguous part of `s`, with only whitespace
   * before it and only whitespace after it.
   */
  lemma TrimMeaning(s: string)
    ensures exists i: nat, j: nat {:trigger WhitespaceOutside(s, i, j)} ::
              WhitespaceOutside(s, i, j) && Trim(s) == s[i..j]
  {
    var t := TrimStart(s);
    var r := TrimEnd(t);
    var i := |s| - |t|;
    SliceOfSuffix(s, t, r);
    assert WhitespaceOutside(s, i, i + |r|);
    assert Trim(s) == r;
  }

  /**
   * A prefix `r` of a suffix `t` of `s` is the slice of `s` that starts
   * where `t` does, and whitespace that follows `r` in `t` follows it in `s`.
   */
  lemma SliceOfSuffix(s: string, t: string, r: string)
    requires |t| <= |s| && t == s[|s| - |t|..]
    requires |r| <= |t| && r == t[..|r|]
    requires forall k :: |r| <= k < |t| ==> IsWhitespace(t[k])
    ensures r == s[|s| - |t|..|s| - |t| + |r|]
    ensures forall k :: |s| - |t| + |r| <= k < |s| ==> IsWhitespace(s[k])
  {
    var i := |s| - |t|;
    forall k | i + |r| <= k < |s|
      ensures IsWhitespace(s[k])
    {
      assert s[k] == t[k - i];
    }
  }

  // --------------------------------------------------------------- splitting

  /** `split(sep)`: the pieces between separators; always at least one, possibly empty. */
  function SplitOn(s: string, sep: char): (r: seq<string>)
    ensures |r| >= 1
    ensures forall i :: 0 <= i < |r| ==> sep !in r[i]
    ensures sep !in s ==> r == [s]
    decreases |s|
  {
    if sep !in s then [s]
    else
      var i := FirstIndexOf(s, sep);
      [s[..i]] + SplitOn(s[i + 1..], sep)
  }

  function FirstIndexOf(s: string, c: char): (i: nat)
    requires c in s
    ensures i < |s| && s[i] == c && c !in s[..i]
  {
    if s[0] == c then 0 else FirstIndexOf(s[1..], c) + 1
  }

  /** Splitting `a + sep + rest` where `a` has no separator yields `a` first. */
  lemma SplitAfterPiece(a: string, sep: char, rest: string)
    requires sep !in a
    ensures SplitOn(a + [sep] + rest, sep) == [a] + SplitOn(rest, sep)
  {
    var s := a + [sep] + rest;
    assert s[|a|] == sep;
    var i := FirstIndexOf(s, sep);
    assert s[..|a|] == a;
    assert s[..i] == a;
    assert s[i + 1..] == rest;
  }

  // ----------------------------------------------------------------- parsing

  predicate IsDigit(c: char) {
    '0' <= c <= '9'
  }

  predicate AllDigits(s: string) {
    forall i :: 0 <= i < |s| ==> IsDigit(s[i])
  }

  /** The value of a string of decimal digits, most significant first. */
  function DigitsValue(s: string): (v: nat)
    requires AllDigits(s)
  {
    if s == [] then 0 else DigitsValue(s[..|s| - 1]) * 10 + (s[|s| - 1] as int - '0' as int)
  }

  /**
   * `str::parse::<usize>()`: an optional leading `+`, then one or more decimal
   * digits whose value fits in `usize`; anything else is an error.
   */
  function ParseUsize(s: string): (r: Option<nat>)
    ensures var d := if s != [] && s[0] == '+' then s[1..] else s;
            && (r.Some? <==> d != [] && AllDigits(d) && DigitsValue(d) < USIZE_LIMIT)
            && (r.Some? ==> r.value == DigitsValue(d))
    ensures r.Some? ==> r.value < USIZE_LIMIT
    ensures r.Some? ==> s != [] && s != "+"
  {
    var digits := if s != [] && s[0] == '+' then s[1..] else s;
    if digits == [] || !AllDigits(digits) then None
    else
      var v := DigitsValue(digits);
      if v < USIZE_LIMIT then Some(v) else None
  }

  /** The decimal numeral of `n`, as Rust's `Display` prints it. */
  function Decimal(n: nat): (r: string)
    ensures r != [] && AllDigits(r)
  {
    if n < 10 then [('0' as int + n) as char]
    else Decimal(n / 10) + [('0' as int + n % 10) as char]
  }

  lemma {:induction false} DecimalValue(n: nat)
    ensures DigitsValue(Decimal(n)) == n
  {
    if n >= 10 {
      DecimalValue(n / 10);
      var d := Decimal(n);
      assert d[..|d| - 1] == Decimal(n / 10);
    }
  }

  /** Printing a `usize` in decimal and parsing it back gives the number. */
  lemma ParseDecimal(n: nat)
    requires n < USIZE_LIMIT
    ensures ParseUsize(Decimal(n)) == Some(n)
  {
    DecimalValue(n);
  }

  /**
   * The dimension parse over the pieces of the trimmed output: the first
   * piece is the width, the second the height, and every piece after that
   * is ignored. A missing or non-numeric piece panics at its `unwrap`.
   */
  function ParsePieces(pieces: seq<string>): (r: Result<(nat, nat), Failure>)
    requires |pieces| >= 1
    ensures r.Err? ==> r.error == Panic
    ensures r.Ok? <==> |pieces| >= 2 && ParseUsize(pieces[0]).Some? && ParseUsize(pieces[1]).Some?
    ensures r.Ok? ==> Some(r.value.0) == ParseUsize(pieces[0]) && Some(r.value.1) == ParseUsize(pieces[1])
  {
    match ParseUsize(pieces[0])
    case None => Err(Panic)
    case Some(width) =>
      if |pieces| < 2 then Err(Panic)
      else
        match ParseUsize(pieces[1])
        case None => Err(Panic)
        case Some(height) => Ok((width, height))
  }

  /**
   * Splitting the trimmed output at `x` and parsing the pieces. Every failure
   * is a panic, and text without any `x` has no height piece, so its second
   * `unwrap` panics.
   */
  function ParseDimensions(t: string): (r: Result<(nat, nat), Failure>)
    ensures r.Err? ==> r.error == Panic
    ensures 'x' !in t ==> r == Err(Panic)
    ensures r.Ok? ==> 'x' in t
  {
    ParsePieces(SplitOn(t, 'x'))
  }

  /**
   * The probe-output part of `read_dimensions`: every failure is a panic, and
   * output without any `x` (after trimming) fails.
   */
  function ReadDimensions(output: string): (r: Result<(nat, nat), Failure>)
    ensures r.Err? ==> r.error == Panic
    ensures 'x' !in Trim(output) ==> r == Err(Panic)
  {
    ParseDimensions(Trim(output))
  }

  /** Pieces after the second one do not take part in the result. */
  lemma ExtraPiecesIgnored(w: string, h: string, rest: string)
    requires 'x' !in w && 'x' !in h
    ensures ParseDimensions(w + "x" + h + "x" + rest) == ParseDimensions(w + "x" + h)
  {
    var long := SplitOn(w + "x" + h + "x" + rest, 'x');
    var short := SplitOn(w + "x" + h, 'x');
    calc {
      long;
      { assert w + "x" + h + "x" + rest == w + ['x'] + (h + ['x'] + rest); }
      SplitOn(w + ['x'] + (h + ['x'] + rest), 'x');
      { SplitAfterPiece(w, 'x', h + ['x'] + rest); }
      [w] + SplitOn(h + ['x'] + rest, 'x');
      { SplitAfterPiece(h, 'x', rest); }
      [w] + ([h] + SplitOn(rest, 'x'));
    }
    calc {
      short;
      { assert w + "x" + h == w + ['x'] + h; }
      SplitOn(w + ['x'] + h, 'x');
      { SplitAfterPiece(w, 'x', h); }
      [w] + SplitOn(h, 'x');
    }
    assert long[0] == short[0] == w && long[1] == short[1] == h;
  }

  /**
   * Text made of a width piece, an `x`, a height piece and then nothing or
   * more `x`-separated pieces yields the two numbers when both pieces parse,
   * and panics otherwise.
   */
  lemma DimensionsOfPieces(w: string, h: string, rest: string)
    requires 'x' !in w && 'x' !in h && (rest == [] || rest[0] == 'x')
    ensures ParseDimensions(w + "x" + h + rest) ==
              if ParseUsize(w).Some? && ParseUsize(h).Some?
              then Ok((ParseUsize(w).value, ParseUsize(h).value))
              else Err(Panic)
  {
    SplitTwoPieces(w, h);
    if rest != [] {
      assert rest == "x" + rest[1..];
      assert w + "x" + h + rest == w + "x" + h + "x" + rest[1..];
      ExtraPiecesIgnored(w, h, rest[1..]);
    } else {
      assert w + "x" + h + rest == w + "x" + h;
    }
  }

  /**
   * Probe output whose trimmed text is a width piece, an `x`, a height piece
   * and then nothing or more `x`-separated pieces reads as those two pieces
   * parse.
   */
  lemma ReadDimensionsOfPieces(output: string, w: string, h: string, rest: string)
    requires 'x' !in w && 'x' !in h && (rest == [] || rest[0] == 'x')
    requires Trim(output) == w + "x" + h + rest
    ensures ReadDimensions(output) ==
              if ParseUsize(w).Some? && ParseUsize(h).Some?
              then Ok((ParseUsize(w).value, ParseUsize(h).value))
              else Err(Panic)
  {
    DimensionsOfPieces(w, h, rest);
  }

  /** A line that starts and ends with a visible character loses only its newline. */
  lemma TrimLine(line: string)
    requires line != [] && !IsWhitespace(line[0]) && !IsWhitespace(line[|line| - 1])
    ensures Trim(line + "\n") == line
  {
    var l := line + "\n";
    assert l[0] == line[0];
    assert TrimStart(l) == l;
    assert l[..|l| - 1] == line;
    assert TrimEnd(l) == TrimEnd(line);
  }

  lemma DigitsHaveNoX(s: string)
    requires AllDigits(s)
    ensures 'x' !in s
  {
  }

  /** Two pieces without `x`, joined by one, split back into the two. */
  lemma SplitTwoPieces(w: string, h: string)
    requires 'x' !in w && 'x' !in h
    ensures SplitOn(w + "x" + h, 'x') == [w, h]
  {
    assert w + "x" + h == w + ['x'] + h;
    SplitAfterPiece(w, 'x', h);
    assert SplitOn(h, 'x') == [h];
  }

  /** A probe line that starts and ends with a visible character reads as that line parses. */
  lemma ReadLine(line: string)
    requires line != [] && !IsWhitespace(line[0]) && !IsWhitespace(line[|line| - 1])
    ensures ReadDimensions(line + "\n") == ParseDimensions(line)
  {
    TrimLine(line);
  }

  /** A probe line `WxH` followed by a newline parses to `(W, H)`. */
  lemma ReadPrintedDimensions(width: nat, height: nat)
    requires width < USIZE_LIMIT && height < USIZE_LIMIT
    ensures ReadDimensions(Decimal(width) + "x" + Decimal(height) + "\n") == Ok((width, height))
  {
    var w, h := Decimal(width), Decimal(height);
    var line := w + "x" + h;
    assert line[0] == w[0] && line[|line| - 1] == h[|h| - 1];
    ReadLine(line);
    DigitsHaveNoX(w);
    DigitsHaveNoX(h);
    SplitTwoPieces(w, h);
    ParseDecimal(width);
    ParseDecimal(height);
  }

  // ------------------------------------------------------------ construction

  /**
   * `FrameSplitter::new`: probe the dimensions (an I/O error if the probe
   * cannot run, a panic if its output does not parse), then start the
   * decoder (an I/O error if it cannot start); the frame index starts at 0.
   */
  function NewFrameSplitter(path: string, probeOutput: Option<string>, decoderStarts: bool)
    : (r: Result<FrameSplitter, Failure>)
    ensures probeOutput.None? ==> r == Err(IoError)
    ensures probeOutput.Some? && ReadDimensions(probeOutput.value).Err? ==> r == Err(Panic)
    ensures probeOutput.Some? && ReadDimensions(probeOutput.value).Ok? && !decoderStarts ==> r == Err(IoError)
    ensures r.Ok? <==> probeOutput.Some? && ReadDimensions(probeOutput.value).Ok? && decoderStarts
    ensures r.Ok? ==> r.value.path == path && r.value.frameIndex == 0
                      && ReadDimensions(probeOutput.value) == Ok((r.value.width, r.value.height))
  {
    match probeOutput
    case None => Err(IoError)
    case Some(output) =>
      match ReadDimensions(output)
      case Err(e) => Err(e)
      case Ok(dims) =>
        if !decoderStarts then Err(IoError)
        else Ok(FrameSplitter(path, 0, dims.0, dims.1))
  }

  /**
   * `next_frame`: a buffer of `4 * width * height` bytes (RGBA8) filled from
   * the decoder's pipe. The product is computed left to right in `usize` and
   * panics on overflow. When the pipe ends early the rest of the buffer keeps
   * its zero fill (`read_exact`'s error is ignored).
   */
  function NextFrame(fs: FrameSplitter, pipe: seq<Byte>): (r: Result<seq<Byte>, Failure>)
    ensures r.Ok? <==> 4 * fs.width < USIZE_LIMIT && 4 * fs.width * fs.height < USIZE_LIMIT
    ensures r.Err? ==> r.error == Panic
    ensures r.Ok? ==> |r.value| == 4 * fs.width * fs.height
    ensures r.Ok? && |pipe| >= 4 * fs.width * fs.height ==> r.value == pipe[..4 * fs.width * fs.height]
    ensures r.Ok? && |pipe| < 4 * fs.width * fs.height ==>
              r.value[..|pipe|] == pipe && forall i :: |pipe| <= i < |r.value| ==> r.value[i] == 0
  {
    if 4 * fs.width >= USIZE_LIMIT || 4 * fs.width * fs.height >= USIZE_LIMIT then Err(Panic)
    else
      var size := 4 * fs.width * fs.height;
      if |pipe| >= size then Ok(pipe[..size])
      else Ok(pipe + seq(size - |pipe|, _ => 0))
  }
}
