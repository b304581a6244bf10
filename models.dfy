/** Values shared by the media observer, the presence publisher and the window
    (Models/MediaInfo.cs). */
module Models {

  /** An optional value, standing for the source's nullable references. */
  datatype Option<+T> = None | Some(value: T)

  /** One byte of thumbnail image data. */
  newtype byte = x: int | 0 <= x < 256

  /** One UTF-16 code unit. A .NET string is a sequence of these: its `Length`
      and its index ranges count code units, so a character outside the Basic
      Multilingual Plane occupies two of them (a surrogate pair). */
  newtype CodeUnit = x: int | 0 <= x < 0x1_0000

  /** The text of a .NET string. */
  type Text = seq<CodeUnit>

  /** The UTF-16 encoding of one Unicode scalar value: itself when it lies in
      the Basic Multilingual Plane, a high and a low surrogate otherwise. */
  function Units(c: char): (u: Text)
    ensures c as int < 0x1_0000 ==> u == [c as int as CodeUnit]
    ensures c as int >= 0x1_0000 ==> |u| == 2 && 0xD800 <= u[0] < 0xDC00 && 0xDC00 <= u[1] < 0xE000
  {
    var n := c as int;
    if n < 0x1_0000 then [n as CodeUnit]
    else [(0xD800 + (n - 0x1_0000) / 0x400) as CodeUnit, (0xDC00 + (n - 0x1_0000) % 0x400) as CodeUnit]
  }

  /** The UTF-16 encoding of a string literal, as the C# compiler stores it.
      Text from the Basic Multilingual Plane keeps one unit per character. */
  function Utf16(s: string): (t: Text)
    ensures (forall i :: 0 <= i < |s| ==> s[i] as int < 0x1_0000) ==>
      |t| == |s| && forall i :: 0 <= i < |s| ==> t[i] == s[i] as int as CodeUnit
    decreases |s|
  {
    if s == [] then [] else Units(s[0]) + Utf16(s[1..])
  }

  /** Encoding a concatenation encodes each part. */
  lemma {:induction false} Utf16Append(a: string, b: string)
    ensures Utf16(a + b) == Utf16(a) + Utf16(b)
    decreases |a|
  {
    if a == [] {
      assert a + b == b;
    } else {
      assert (a + b)[0] == a[0];
      assert (a + b)[1..] == a[1..] + b;
      Utf16Append(a[1..], b);
    }
  }

  /** A snapshot of what is playing. A new snapshot replaces the previous one
      whole; "nothing playing" is the absence of a snapshot (None), not a
      snapshot with empty fields. */
  datatype MediaInfo = MediaInfo(
    title: Text,
    artist: Text,
    isPlaying: bool,
    thumbnail: Option<seq<byte>>
  )
}
