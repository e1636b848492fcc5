/** Scoring, filtering and ordering of search results, over the reals. */
module Ranker {
  import opened Collections
  import opened EditDistance

  // ----- Similarity of two strings

  // Bytes of a code point in UTF-8.
  function Width(c: char): (w: nat)
    ensures 1 <= w <= 4
  {
    if c as int < 0x80 then 1 else if c as int < 0x800 then 2 else if c as int < 0x1_0000 then 3 else 4
  }

  function ByteLength(s: Str): nat {
    if s == [] then 0 else ByteLength(Init(s)) + Width(Last(s))
  }

  lemma {:induction false} ByteLengthAtLeast(s: Str)
    ensures ByteLength(s) >= |s|
  {
    if s != [] {
      ByteLengthAtLeast(Init(s));
    }
  }

  function Similarity(a: Str, b: Str): real {
    if a == b then 1.0
    else
      var maxLen := Max(ByteLength(a), ByteLength(b));
      if maxLen == 0 then 1.0 else 1.0 - Lev(a, b) as real / maxLen as real
  }

  // The distance counts code points and the divisor bytes, yet the quotient never leaves [0, 1].
  lemma SimilarityRange(a: Str, b: Str)
    ensures 0.0 <= Similarity(a, b) <= 1.0
    ensures Similarity(a, b) == 1.0 <==> a == b
  {
    ByteLengthAtLeast(a);
    ByteLengthAtLeast(b);
    LengthBounds(a, b);
    ZeroIffEqual(a, b);
    var maxLen := Max(ByteLength(a), ByteLength(b));
    if a != b {
      Fraction(Lev(a, b), maxLen);
    }
  }

  lemma Fraction(n: nat, d: nat)
    requires n <= d && 0 < d
    ensures 0.0 <= n as real / d as real <= 1.0
    ensures n > 0 ==> n as real / d as real > 0.0
  {
  }

  lemma SimilaritySymmetric(a: Str, b: Str)
    ensures Similarity(a, b) == Similarity(b, a)
  {
    Symmetric(a, b);
  }

  // ----- The score of one file

  datatype FileType = Mp3 | Flac | Wav | Aac | M4a | Ogg | Alac | Aiff | Opus | Other(ext: Str) {
    predicate Lossless() { Flac? || Alac? || Wav? || Aiff? }
  }

  datatype SongQuery = SongQuery(title: Str, artist: Str, durationSecs: nat)
  datatype Metadata = Metadata(title: Str, artist: Str)
  datatype Attributes = Attributes(bitrate: Option<nat>, duration: Option<nat>)
  datatype File = File(name: Str, size: nat, attributes: Attributes)

  // Unicode normalisation, path parsing and the reading of a file extension are not modelled: any functions will do.
  datatype Text = Text(normalize: Str -> Str, parse: Str -> Metadata, typeOf: Str -> FileType)

  function FormatScore(t: FileType, bitrate: Option<nat>): real {
    if t.Lossless() then 1.0
    else if bitrate.Some? && bitrate.value >= 320 then 0.85
    else if bitrate.Some? && bitrate.value >= 256 then 0.70
    else if bitrate.Some? && bitrate.value >= 192 then 0.55
    else 0.35
  }

  function DurationScore(wanted: nat, duration: Option<nat>): real {
    if duration.None? then 0.5
    else
      var diff := if wanted < duration.value then duration.value - wanted else wanted - duration.value;
      if diff <= 5 then 1.0 else if diff >= 30 then 0.0 else 1.0 - (diff - 5) as real / 25.0
  }

  function CompareTracks(text: Text, query: SongQuery, parsed: Metadata, attrs: Attributes, t: FileType): real {
    var titleScore := Similarity(text.normalize(query.title), text.normalize(parsed.title));
    var artistScore := if parsed.artist == [] then 0.5
                       else Similarity(text.normalize(query.artist), text.normalize(parsed.artist));
    titleScore * 0.45 + artistScore * 0.30 + DurationScore(query.durationSecs, attrs.duration) * 0.10
      + FormatScore(t, attrs.bitrate) * 0.15
  }

  // The score is a number in [0.0525, 1]. It is 1 for exactly the lossless files within five seconds
  // of the wanted duration whose normalised title and known artist are the wanted ones.
  lemma ScoreRange(text: Text, query: SongQuery, parsed: Metadata, attrs: Attributes, t: FileType)
    ensures var s := CompareTracks(text, query, parsed, attrs, t);
            && 0.0525 <= s <= 1.0
            && (s == 1.0 <==>
                && text.normalize(query.title) == text.normalize(parsed.title)
                && parsed.artist != [] && text.normalize(query.artist) == text.normalize(parsed.artist)
                && attrs.duration.Some? && query.durationSecs - 5 <= attrs.duration.value <= query.durationSecs + 5
                && t.Lossless())
  {
    SimilarityRange(text.normalize(query.title), text.normalize(parsed.title));
    SimilarityRange(text.normalize(query.artist), text.normalize(parsed.artist));
    hide Similarity;
  }

  // ----- Ranking

  datatype WantedFileTypes = All | Specific(types: set<FileType>) {
    predicate Compatible(t: FileType) {
      All? || t in types
    }
  }

  datatype SongResult = SongResult(file: File, fileType: FileType, score: real)

  const MIN_SCORE_THRESHOLD := 0.50

  function Rate(text: Text, query: SongQuery, file: File): SongResult {
    var t := text.typeOf(file.name);
    SongResult(file, t, CompareTracks(text, query, text.parse(file.name), file.attributes, t))
  }

  // The rated files that pass, in the order in which they came.
  function Passing(text: Text, query: SongQuery, files: seq<File>, wanted: WantedFileTypes): seq<SongResult> {
    if files == [] then []
    else
      var r := Rate(text, query, files[|files| - 1]);
      Passing(text, query, files[..|files| - 1], wanted)
        + if wanted.Compatible(r.fileType) && r.score >= MIN_SCORE_THRESHOLD then [r] else []
  }

  predicate Descending(s: seq<SongResult>) {
    forall i, j | 0 <= i < j < |s| :: s[i].score >= s[j].score
  }

  // The results with one score, in order.
  function Class(s: seq<SongResult>, score: real): seq<SongResult> {
    if s == [] then []
    else Class(s[..|s| - 1], score) + if s[|s| - 1].score == score then [s[|s| - 1]] else []
  }

  // Behind everything that scores at least as much.
  function Place(s: seq<SongResult>, r: SongResult): seq<SongResult> {
    if s == [] || s[|s| - 1].score >= r.score then s + [r]
    else Place(s[..|s| - 1], r) + [s[|s| - 1]]
  }

  // What a stable sort by descending score returns.
  function StableSort(s: seq<SongResult>): seq<SongResult> {
    if s == [] then [] else Place(StableSort(s[..|s| - 1]), s[|s| - 1])
  }

  lemma {:induction false} PlaceMultiset(s: seq<SongResult>, r: SongResult)
    ensures multiset(Place(s, r)) == multiset(s) + multiset{r}
  {
    if s != [] && s[|s| - 1].score < r.score {
      PlaceMultiset(s[..|s| - 1], r);
      assert s == s[..|s| - 1] + [s[|s| - 1]];
    }
  }

  lemma {:induction false} PlaceDescending(s: seq<SongResult>, r: SongResult)
    requires Descending(s)
    ensures Descending(Place(s, r))
  {
    if s != [] && s[|s| - 1].score < r.score {
      var init, last := s[..|s| - 1], s[|s| - 1];
      PlaceDescending(init, r);
      PlaceMultiset(init, r);
      forall i | 0 <= i < |Place(init, r)| ensures Place(init, r)[i].score >= last.score {
        var x := Place(init, r)[i];
        assert x in multiset(Place(init, r));
        assert x in init || x == r;
      }
    }
  }

  lemma {:induction false} PlaceClass(s: seq<SongResult>, r: SongResult, score: real)
    ensures Class(Place(s, r), score) == Class(s + [r], score)
  {
    if s != [] && s[|s| - 1].score < r.score {
      var init, last := s[..|s| - 1], s[|s| - 1];
      PlaceClass(init, r, score);
      assert (Place(init, r) + [last])[..|Place(init, r)|] == Place(init, r);
      assert (s + [r])[..|s|] == s && (init + [r])[..|init|] == init;
    }
  }

  lemma {:induction false} SortDescending(s: seq<SongResult>)
    ensures Descending(StableSort(s))
  {
    hide Place, Descending;
    if s == [] {
      NothingDescending();
    } else {
      var init, last := s[..|s| - 1], s[|s| - 1];
      SortDescending(init);
      PlaceDescending(StableSort(init), last);
    }
  }

  lemma NothingDescending()
    ensures Descending([])
  {
  }

  lemma {:induction false} SortMultiset(s: seq<SongResult>)
    ensures multiset(StableSort(s)) == multiset(s)
  {
    hide Place;
    if s != [] {
      var init, last := s[..|s| - 1], s[|s| - 1];
      SortMultiset(init);
      PlaceMultiset(StableSort(init), last);
      assert s == init + [last];
    }
  }

  lemma ClassNext(s: seq<SongResult>, r: SongResult, score: real)
    ensures Class(s + [r], score) == Class(s, score) + if r.score == score then [r] else []
  {
    assert (s + [r])[..|s|] == s;
  }

  lemma {:induction false} SortClass(s: seq<SongResult>, score: real)
    ensures Class(StableSort(s), score) == Class(s, score)
  {
    hide Place, Class;
    if s != [] {
      var init, last := s[..|s| - 1], s[|s| - 1];
      SortClass(init, score);
      PlaceClass(StableSort(init), last, score);
      ClassNext(StableSort(init), last, score);
      ClassNext(init, last, score);
      assert s == init + [last];
    }
  }

  lemma StableSortSorts(s: seq<SongResult>)
    ensures Descending(StableSort(s)) && multiset(StableSort(s)) == multiset(s)
    ensures SameClasses(StableSort(s), s)
  {
    SortDescending(s);
    SortMultiset(s);
    forall score ensures Class(StableSort(s), score) == Class(s, score) {
      SortClass(s, score);
    }
  }

  lemma {:induction false} ClassMembers(s: seq<SongResult>, score: real)
    ensures forall x :: x in Class(s, score) <==> x in s && x.score == score
  {
    if s != [] {
      ClassMembers(s[..|s| - 1], score);
      assert s == s[..|s| - 1] + [s[|s| - 1]];
    }
  }

  lemma InClass(s: seq<SongResult>, t: seq<SongResult>, x: SongResult)
    requires Class(s, x.score) == Class(t, x.score) && x in s
    ensures x in t
  {
    ClassMembers(s, x.score);
    ClassMembers(t, x.score);
    assert x in Class(t, x.score);
  }

  lemma LastOfClass(s: seq<SongResult>)
    requires s != []
    ensures var x := s[|s| - 1]; var c := Class(s, x.score); c != [] && c[|c| - 1] == x
  {
  }

  ghost predicate SameClasses(s: seq<SongResult>, t: seq<SongResult>) {
    forall score :: Class(s, score) == Class(t, score)
  }

  // The last of s, being somewhere in t, scores at least as much as the last of t.
  lemma LastScore(s: seq<SongResult>, t: seq<SongResult>)
    requires Descending(t) && s != [] && SameClasses(s, t)
    ensures t != [] && t[|t| - 1].score <= s[|s| - 1].score
  {
    var x := s[|s| - 1];
    assert Class(s, x.score) == Class(t, x.score);
    InClass(s, t, x);
    hide SameClasses, Class;
    var j :| 0 <= j < |t| && t[j] == x;
  }

  lemma SameLast(s: seq<SongResult>, t: seq<SongResult>)
    requires Descending(s) && Descending(t) && s != [] && SameClasses(s, t)
    ensures t != [] && s[|s| - 1] == t[|t| - 1]
  {
    LastScore(s, t);
    LastScore(t, s);
    LastOfClass(s);
    LastOfClass(t);
    assert Class(s, s[|s| - 1].score) == Class(t, t[|t| - 1].score);
  }

  // Order by score and order within equal scores leave no choice.
  lemma {:induction false} StableSortUnique(s: seq<SongResult>, t: seq<SongResult>)
    requires Descending(s) && Descending(t) && SameClasses(s, t)
    ensures s == t
    decreases |s| + |t|
  {
    if s != [] || t != [] {
      if s == [] {
        SameLast(t, s);
      } else {
        SameLast(s, t);
      }
      var s', t' := s[..|s| - 1], t[..|t| - 1];
      forall score ensures Class(s', score) == Class(t', score) {
        var last := if s[|s| - 1].score == score then [s[|s| - 1]] else [];
        assert Class(s, score) == Class(s', score) + last && Class(t, score) == Class(t', score) + last;
        assert Class(s', score) == Class(s, score)[..|Class(s, score)| - |last|];
        assert Class(t', score) == Class(t, score)[..|Class(t, score)| - |last|];
      }
      StableSortUnique(s', t');
      assert s == s' + [s[|s| - 1]] && t == t' + [t[|t| - 1]];
    }
  }

  predicate Passes(r: SongResult, wanted: WantedFileTypes) {
    (wanted == All || r.fileType in wanted.types) && r.score >= 0.50
  }

  predicate Increasing(index: seq<nat>) {
    forall j, k | 0 <= j < k < |index| :: index[j] < index[k]
  }

  lemma PassingNext(text: Text, query: SongQuery, files: seq<File>, wanted: WantedFileTypes)
    requires files != []
    ensures var n := |files| - 1;
            var r := Rate(text, query, files[n]);
            Passing(text, query, files, wanted)
            == Passing(text, query, files[..n], wanted) + if Passes(r, wanted) then [r] else []
  {
    hide Rate;
  }

  // The results are those of the files that pass, each once for each time it is listed, in the order of the list:
  // `index` says where they stand in it.
  lemma {:induction false} PassingExactly(text: Text, query: SongQuery, files: seq<File>, wanted: WantedFileTypes)
    returns (index: seq<nat>)
    ensures |index| == |Passing(text, query, files, wanted)| && Increasing(index)
    ensures forall k | 0 <= k < |index| ::
              index[k] < |files| && Passing(text, query, files, wanted)[k] == Rate(text, query, files[index[k]])
    ensures forall i | 0 <= i < |files| :: i in index <==> Passes(Rate(text, query, files[i]), wanted)
  {
    if files == [] {
      index := [];
    } else {
      var n := |files| - 1;
      index := PassingExactly(text, query, files[..n], wanted);
      PassingNext(text, query, files, wanted);
      hide Rate, Passing, Passes;
      if Passes(Rate(text, query, files[n]), wanted) {
        index := index + [n];
      }
    }
  }

  // A result names the file it is about, with the type that its name says.
  lemma RatedFile(text: Text, query: SongQuery, f: File)
    ensures var r := Rate(text, query, f); r.file == f && r.fileType == text.typeOf(f.name)
  {
    hide Similarity;
  }

  // So a result is there if and only if some file passes with it, and it names that file and its type.
  lemma PassingMembers(text: Text, query: SongQuery, files: seq<File>, wanted: WantedFileTypes)
    ensures forall r :: r in Passing(text, query, files, wanted) <==>
              exists f :: f in files && r == Rate(text, query, f) && (wanted == All || r.fileType in wanted.types)
                          && r.score >= 0.50
    ensures forall f :: Rate(text, query, f).file == f && Rate(text, query, f).fileType == text.typeOf(f.name)
  {
    forall f ensures Rate(text, query, f).file == f && Rate(text, query, f).fileType == text.typeOf(f.name) {
      RatedFile(text, query, f);
    }
    var index := PassingExactly(text, query, files, wanted);
    var results := Passing(text, query, files, wanted);
    hide Rate, Passing;
    forall f | f in files && Passes(Rate(text, query, f), wanted) ensures Rate(text, query, f) in results {
      var i :| 0 <= i < |files| && files[i] == f;
      var k :| 0 <= k < |index| && index[k] == i;
      assert results[k] == Rate(text, query, f);
    }
    forall r | r in results ensures exists f :: f in files && r == Rate(text, query, f) && Passes(r, wanted) {
      var k :| 0 <= k < |results| && results[k] == r;
      assert index[k] in index && files[index[k]] in files;
    }
  }

  method RankResults(text: Text, query: SongQuery, files: seq<File>, wanted: WantedFileTypes)
    returns (results: seq<SongResult>)
    ensures Descending(results)
    ensures multiset(results) == multiset(Passing(text, query, files, wanted))
    ensures SameClasses(results, Passing(text, query, files, wanted))
  {
    results := [];
    for i := 0 to |files|
      invariant results == Passing(text, query, files[..i], wanted)
    {
      assert files[..i + 1][..i] == files[..i];
      var r := Rate(text, query, files[i]);
      if wanted.Compatible(r.fileType) {
        if r.score >= MIN_SCORE_THRESHOLD {
          results := results + [r];
        }
      }
    }
    assert files[..|files|] == files;
    StableSortSorts(results);
    results := StableSort(results);
  }
}
