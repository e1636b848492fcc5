/** What each part of a score is worth, measured by what it moves. */
module ScoreParts {
  import opened Collections
  import opened EditDistance
  import opened Ranker

  // ----- Byte lengths

  // The bytes of a code point in UTF-8 (RFC 3629): six bits in every byte behind the first.
  function Utf8(c: char): seq<int> {
    var v := c as int;
    if v < 0x80 then [v]
    else if v < 0x800 then [0xC0 + v / 64, 0x80 + v % 64]
    else if v < 0x1_0000 then [0xE0 + v / 4096, 0x80 + v / 64 % 64, 0x80 + v % 64]
    else [0xF0 + v / 262144, 0x80 + v / 4096 % 64, 0x80 + v / 64 % 64, 0x80 + v % 64]
  }

  // The number that the bytes carry: the first byte says how many of its bits count.
  function Carried(bytes: seq<int>): int
    requires bytes != []
  {
    Rest(bytes[1..], if bytes[0] < 0x80 then bytes[0] else if bytes[0] < 0xE0 then bytes[0] - 0xC0
                     else if bytes[0] < 0xF0 then bytes[0] - 0xE0 else bytes[0] - 0xF0)
  }

  function Rest(bytes: seq<int>, v: int): int {
    if bytes == [] then v else Rest(bytes[1..], 64 * v + (bytes[0] - 0x80))
  }

  lemma RestOfTwo(b: int, c: int, v: int)
    ensures Rest([b, c], v) == 64 * (64 * v + (b - 0x80)) + (c - 0x80)
  {
    assert [b, c][1..] == [c] && [c][1..] == [];
    assert Rest([c], 64 * v + (b - 0x80)) == Rest([], 64 * (64 * v + (b - 0x80)) + (c - 0x80));
  }

  lemma RestOfThree(b: int, c: int, d: int, v: int)
    ensures Rest([b, c, d], v) == 64 * (64 * (64 * v + (b - 0x80)) + (c - 0x80)) + (d - 0x80)
  {
    assert [b, c, d][1..] == [c, d];
    RestOfTwo(c, d, 64 * v + (b - 0x80));
  }

  lemma TwoBytes(v: nat)
    requires 0x80 <= v < 0x800
    ensures Carried([0xC0 + v / 64, 0x80 + v % 64]) == v
  {
    RestOne(0x80 + v % 64, v / 64);
    assert [0xC0 + v / 64, 0x80 + v % 64][1..] == [0x80 + v % 64];
    hide Rest;
  }

  lemma ThreeBytes(v: nat)
    requires 0x800 <= v < 0x1_0000
    ensures Carried([0xE0 + v / 4096, 0x80 + v / 64 % 64, 0x80 + v % 64]) == v
  {
    RestOfTwo(0x80 + v / 64 % 64, 0x80 + v % 64, v / 4096);
    assert [0xE0 + v / 4096, 0x80 + v / 64 % 64, 0x80 + v % 64][1..] == [0x80 + v / 64 % 64, 0x80 + v % 64];
    hide Rest;
  }

  lemma FourBytes(v: nat)
    requires 0x1_0000 <= v < 0x11_0000
    ensures Carried([0xF0 + v / 262144, 0x80 + v / 4096 % 64, 0x80 + v / 64 % 64, 0x80 + v % 64]) == v
  {
    Sixes(v);
    FourCarried(v / 262144, v / 4096 % 64, v / 64 % 64, v % 64);
    hide Carried;
  }

  lemma Sixes(v: nat)
    requires v < 0x11_0000
    ensures v == 64 * (64 * (64 * (v / 262144) + v / 4096 % 64) + v / 64 % 64) + v % 64 && v / 262144 < 8
  {
  }

  lemma FourCarried(a: nat, b: nat, c: nat, d: nat)
    requires a < 8
    ensures Carried([0xF0 + a, 0x80 + b, 0x80 + c, 0x80 + d]) == 64 * (64 * (64 * a + b) + c) + d
  {
    RestOfThree(0x80 + b, 0x80 + c, 0x80 + d, a);
    assert [0xF0 + a, 0x80 + b, 0x80 + c, 0x80 + d][1..] == [0x80 + b, 0x80 + c, 0x80 + d];
    hide Rest;
  }

  // The width is the length of an encoding that can be read back.
  lemma WidthIsUtf8(c: char)
    ensures Width(c) == |Utf8(c)| && Carried(Utf8(c)) == c as int
  {
    hide Carried;
    var v := c as int;
    if v < 0x80 {
      Alone(v);
    } else if v < 0x800 {
      TwoBytes(v);
    } else if v < 0x1_0000 {
      ThreeBytes(v);
    } else {
      FourBytes(v);
    }
  }

  // Bytes behind the first are told from first bytes.
  lemma Utf8Bytes(c: char)
    ensures forall i | 0 <= i < |Utf8(c)| :: 0 <= Utf8(c)[i] < 256 && (i > 0 <==> 0x80 <= Utf8(c)[i] < 0xC0)
  {
  }

  lemma Alone(v: int)
    requires v < 0x80
    ensures Carried([v]) == v
  {
    assert [v][1..] == [];
  }

  lemma RestOne(b: int, v: int)
    ensures Rest([b], v) == 64 * v + (b - 0x80)
  {
    assert [b][1..] == [];
  }

  // ----- Similarity

  // Every script that turns one string into the other bounds the similarity from below, and the shortest one is it:
  // one minus its length over the number of bytes of the longer string.
  lemma SimilarityOfScripts(a: Str, b: Str, bytes: nat)
    requires a != b && bytes == if ByteLength(a) < ByteLength(b) then ByteLength(b) else ByteLength(a)
    ensures bytes > 0
    ensures forall script | Turns(script, a, b) :: Similarity(a, b) >= 1.0 - |script| as real / bytes as real
    ensures exists script :: Turns(script, a, b) && Similarity(a, b) == 1.0 - |script| as real / bytes as real
  {
    ByteLengthAtLeast(a);
    ByteLengthAtLeast(b);
    var shortest := ShortestScript(a, b);
    forall script | Turns(script, a, b) ensures Similarity(a, b) >= 1.0 - |script| as real / bytes as real {
      NoShorterScript(script, a, b);
      MoreEdits(Lev(a, b), |script|, bytes);
    }
    assert Turns(shortest, a, b) && Similarity(a, b) == 1.0 - |shortest| as real / bytes as real;
  }

  lemma MoreEdits(n: nat, m: nat, bytes: nat)
    requires n <= m && bytes > 0
    ensures n as real / bytes as real <= m as real / bytes as real
  {
  }

  lemma {:induction false} NothingShared(a: Str, b: Str)
    requires forall c | c in a :: c !in b
    ensures Lev(a, b) == Max(|a|, |b|)
    decreases |a| + |b|
  {
    LengthBounds(a, b);
    if a != [] && b != [] {
      assert Last(a) in a && Last(b) in b;
      assert forall c | c in Init(a) :: c in a;
      assert forall c | c in Init(b) :: c in b;
      NothingShared(Init(a), Init(b));
      NothingShared(Init(a), b);
      NothingShared(a, Init(b));
    }
  }

  lemma {:induction false} AsciiBytes(s: Str)
    requires forall c | c in s :: c as int < 0x80
    ensures ByteLength(s) == |s|
  {
    if s != [] {
      assert Last(s) in s && forall c | c in Init(s) :: c in s;
      AsciiBytes(Init(s));
    }
  }

  // ASCII strings without a common character are not similar at all.
  lemma UnlikeStrings(a: Str, b: Str)
    requires a != b && (forall c | c in a :: c as int < 0x80 && c !in b) && (forall c | c in b :: c as int < 0x80)
    ensures Similarity(a, b) == 0.0
  {
    hide Lev, ByteLength;
    NothingShared(a, b);
    AsciiBytes(a);
    AsciiBytes(b);
    Whole(Max(|a|, |b|));
  }

  lemma Whole(n: nat)
    requires n > 0
    ensures n as real / n as real == 1.0
  {
  }

  // ----- The four parts

  lemma LosslessTypes(t: FileType)
    ensures t.Lossless() <==> t in {Flac, Alac, Wav, Aiff}
  {
  }

  // Four lossless types are worth 1 whatever the bitrate is, and the others by the band of their bitrate.
  lemma FormatBands(t: FileType, bitrate: nat)
    ensures t in {Flac, Alac, Wav, Aiff} ==> FormatScore(t, Some(bitrate)) == FormatScore(t, None) == 1.0
    ensures t !in {Flac, Alac, Wav, Aiff} ==>
              && FormatScore(t, None) == 0.35
              && (bitrate < 192 ==> FormatScore(t, Some(bitrate)) == 0.35)
              && (192 <= bitrate < 256 ==> FormatScore(t, Some(bitrate)) == 0.55)
              && (256 <= bitrate < 320 ==> FormatScore(t, Some(bitrate)) == 0.70)
              && (320 <= bitrate ==> FormatScore(t, Some(bitrate)) == 0.85)
  {
  }

  // The duration counts fully up to five seconds off, falls by 0.04 a second, and counts nothing from 30 seconds on.
  lemma DurationFalls(wanted: nat, off: nat)
    ensures off <= 5 ==> DurationScore(wanted, Some(wanted + off)) == 1.0
    ensures 5 <= off < 30 ==>
              DurationScore(wanted, Some(wanted + off + 1)) == DurationScore(wanted, Some(wanted + off)) - 0.04
    ensures off >= 30 ==> DurationScore(wanted, Some(wanted + off)) == 0.0
    ensures DurationScore(wanted + off, Some(wanted)) == DurationScore(wanted, Some(wanted + off))
    ensures DurationScore(wanted, None) == 0.5
  {
  }

  function TitleScore(text: Text, query: SongQuery, title: Str): real {
    Similarity(text.normalize(query.title), text.normalize(title))
  }

  function ArtistScore(text: Text, query: SongQuery, artist: Str): real {
    Similarity(text.normalize(query.artist), text.normalize(artist))
  }

  // Two titles differ in the score by 0.45 of the difference of their similarities.
  lemma TitleMoves(text: Text, query: SongQuery, parsed: Metadata, title: Str, attrs: Attributes, t: FileType)
    ensures CompareTracks(text, query, parsed.(title := title), attrs, t) - CompareTracks(text, query, parsed, attrs, t)
         == 0.45 * (TitleScore(text, query, title) - TitleScore(text, query, parsed.title))
  {
    hide Similarity, FormatScore, DurationScore;
  }

  // Two known artists by 0.30 of theirs; an unknown one is worth as much as a similarity of one half.
  lemma ArtistMoves(text: Text, query: SongQuery, parsed: Metadata, artist: Str, attrs: Attributes, t: FileType)
    requires artist != []
    ensures parsed.artist != [] ==>
              CompareTracks(text, query, parsed.(artist := artist), attrs, t)
              - CompareTracks(text, query, parsed, attrs, t)
              == 0.30 * (ArtistScore(text, query, artist) - ArtistScore(text, query, parsed.artist))
    ensures parsed.artist == [] ==>
              CompareTracks(text, query, parsed.(artist := artist), attrs, t)
              - CompareTracks(text, query, parsed, attrs, t)
              == 0.30 * (ArtistScore(text, query, artist) - 0.5)
  {
    hide Similarity, FormatScore, DurationScore;
  }

  // The duration by 0.10 of its part,
  lemma DurationMoves(text: Text, query: SongQuery, parsed: Metadata, attrs: Attributes, duration: Option<nat>,
                      t: FileType)
    ensures CompareTracks(text, query, parsed, attrs.(duration := duration), t)
            - CompareTracks(text, query, parsed, attrs, t)
         == 0.10 * (DurationScore(query.durationSecs, duration) - DurationScore(query.durationSecs, attrs.duration))
  {
    hide Similarity, FormatScore, DurationScore;
  }

  // and type and bitrate by 0.15 of theirs.
  lemma FormatMoves(text: Text, query: SongQuery, parsed: Metadata, attrs: Attributes, bitrate: Option<nat>,
                    t: FileType, t': FileType)
    ensures CompareTracks(text, query, parsed, attrs.(bitrate := bitrate), t')
            - CompareTracks(text, query, parsed, attrs, t)
         == 0.15 * (FormatScore(t', bitrate) - FormatScore(t, attrs.bitrate))
  {
    hide Similarity, FormatScore, DurationScore;
  }

  // A file's rating moves with its own attributes in the same way.
  lemma AttributesMove(text: Text, query: SongQuery, f: File, attrs: Attributes)
    ensures Rate(text, query, f.(attributes := attrs)).score - Rate(text, query, f).score
         == 0.10 * (DurationScore(query.durationSecs, attrs.duration)
                    - DurationScore(query.durationSecs, f.attributes.duration))
            + 0.15 * (FormatScore(text.typeOf(f.name), attrs.bitrate)
                      - FormatScore(text.typeOf(f.name), f.attributes.bitrate))
  {
    hide Similarity, FormatScore, DurationScore;
  }

  // ----- Which of two files is found

  // A parser for the example: two names.
  function Halves(name: Str): Metadata {
    if name == "halo-zzzz" then Metadata("halo", "zzzz") else Metadata("zzzz", "beyonce")
  }

  function Example(): Text {
    Text(s => s, Halves, _ => Mp3)
  }

  const WANTED := SongQuery("halo", "beyonce", 0)

  lemma ExampleScore(parsed: Metadata)
    ensures CompareTracks(Example(), WANTED, parsed, Attributes(None, None), Mp3)
         == 0.45 * Similarity("halo", parsed.title)
            + 0.30 * (if parsed.artist == [] then 0.5 else Similarity("beyonce", parsed.artist)) + 0.1025
  {
    hide Similarity;
  }

  lemma Extremes()
    ensures Similarity("halo", "halo") == 1.0 && Similarity("beyonce", "beyonce") == 1.0
    ensures Similarity("halo", "zzzz") == 0.0 && Similarity("beyonce", "zzzz") == 0.0
  {
    hide Lev, ByteLength;
    UnlikeStrings("halo", "zzzz");
    UnlikeStrings("beyonce", "zzzz");
  }

  // A file with the right title passes without its artist, and one with the right artist does not without its title.
  lemma TitleBeforeArtist(a: File, b: File)
    requires a.name == "halo-zzzz" && b.name == "zzzz-beyonce"
    requires a.attributes == Attributes(None, None) && b.attributes == Attributes(None, None)
    ensures Rate(Example(), WANTED, a).score == 0.5525 && Rate(Example(), WANTED, b).score == 0.4025
    ensures Passing(Example(), WANTED, [b, a], All) == [Rate(Example(), WANTED, a)]
  {
    Extremes();
    ExampleScore(Metadata("halo", "zzzz"));
    ExampleScore(Metadata("zzzz", "beyonce"));
    hide Similarity, CompareTracks;
    assert Rate(Example(), WANTED, a).score == 0.5525 && Rate(Example(), WANTED, b).score == 0.4025;
    hide Rate, Example;
    assert [b, a][..1] == [b] && [b][..0] == [];
    assert Passing(Example(), WANTED, [b], All) == [];
  }
}
