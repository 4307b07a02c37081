/**
 * `pad_to_width` from the terminal track view (src/song_view.rs): fits a
 * lyric into exactly `width` cells by cutting it or padding it with spaces.
 * A Rust `String` is measured in bytes; here each `char` stands for one byte.
 */
module SongView {

  /** `width` spaces. */
  function Spaces(width: nat): (r: string)
    ensures |r| == width
    ensures forall i :: 0 <= i < width ==> r[i] == ' '
  {
    seq(width, _ => ' ')
  }

  function PadToWidth(s: string, width: nat): (r: string)
    ensures |r| == width
    ensures |s| > width ==> r == s[..width]
    ensures |s| <= width ==> r[..|s|] == s
    ensures forall i :: |s| <= i < width ==> r[i] == ' '
  {
    if |s| > width then s[..width] else s + Spaces(width - |s|)
  }

  /** A string that already has the width comes back unchanged. */
  lemma PadExactWidth(s: string)
    ensures PadToWidth(s, |s|) == s
  {
    assert PadToWidth(s, |s|)[..|s|] == s;
  }

  /** Padding twice to the same width is padding once. */
  lemma PadIdempotent(s: string, width: nat)
    ensures PadToWidth(PadToWidth(s, width), width) == PadToWidth(s, width)
  {
    PadExactWidth(PadToWidth(s, width));
  }

  /** The result is determined entirely by the first `width` characters of `s`. */
  lemma PadKeepsPrefix(s: string, width: nat, i: nat)
    requires i < width && i < |s|
    ensures PadToWidth(s, width)[i] == s[i]
  {
    if |s| <= width {
      assert PadToWidth(s, width)[..|s|][i] == s[i];
    }
  }
}
