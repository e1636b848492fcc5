/** Search responses: what the parsing loops make of any bytes, and that they recover what was written. */
module SearchSpec {
  import opened BitStream
  import opened Collections
  import opened Wire

  datatype FileAttributes = FileAttributes(bitrate: Option<nat>, duration: Option<nat>, vbr: Option<bool>,
                                           sampleRate: Option<nat>, bitDepth: Option<nat>)

  datatype File = File(username: Bytes, name: Bytes, size: nat, attributes: FileAttributes)

  datatype SearchResult = SearchResult(token: nat, files: seq<File>, slots: nat, speed: nat, username: Bytes)

  function Get(attribs: map<nat, nat>, key: nat): Option<nat> {
    if key in attribs then Some(attribs[key]) else None
  }

  function FromMap(attribs: map<nat, nat>): FileAttributes {
    var vbr := Get(attribs, 2);
    FileAttributes(Get(attribs, 0), Get(attribs, 1), if vbr.Some? then Some(vbr.value != 0) else None,
                   Get(attribs, 4), Get(attribs, 5))
  }

  // A path off the wire has backslashes only.
  function FromWire(path: Bytes): Bytes {
    seq(|path|, i requires 0 <= i < |path| => if path[i] == 47 then 92 else path[i])
  }

  // Slashes become backslashes and everything else stays, so normalizing twice changes nothing more.
  lemma FromWireNormal(path: Bytes)
    ensures |FromWire(path)| == |path| && 47 !in FromWire(path) && FromWire(FromWire(path)) == FromWire(path)
    ensures forall i | 0 <= i < |path| :: FromWire(path)[i] == 92 <==> path[i] == 47 || path[i] == 92
    ensures forall i | 0 <= i < |path| && path[i] != 47 :: FromWire(path)[i] == path[i]
    ensures 47 !in path <==> FromWire(path) == path
  {
    if 47 in path {
      var i :| 0 <= i < |path| && path[i] == 47;
      assert FromWire(path)[i] == 92;
    }
  }

  // ----- Reading

  function ReadAttribs(data: Bytes, p: nat, n: nat, attribs: map<nat, nat>): (map<nat, nat>, nat)
    decreases n
  {
    if n == 0 then (attribs, p)
    else
      var (key, p1) := ReadInt(data, p, 4);
      var (value, p2) := ReadInt(data, p1, 4);
      ReadAttribs(data, p2, n - 1, attribs[key := value])
  }

  function ReadFile(data: Bytes, p: nat, username: Bytes): (File, nat) {
    var (_, p1) := ReadInt(data, p, 1);
    var (name, p2) := ReadString(data, p1);
    var (size, p3) := ReadInt(data, p2, 8);
    var (_, p4) := ReadString(data, p3);
    var (n, p5) := ReadInt(data, p4, 4);
    var (attribs, p6) := ReadAttribs(data, p5, n, map[]);
    (File(username, FromWire(name), size, FromMap(attribs)), p6)
  }

  function ReadFiles(data: Bytes, p: nat, n: nat, username: Bytes, files: seq<File>): (seq<File>, nat)
    decreases n
  {
    if n == 0 then (files, p)
    else
      var (file, p1) := ReadFile(data, p, username);
      ReadFiles(data, p1, n - 1, username, files + [file])
  }

  function ReadResult(data: Bytes, p: nat): (SearchResult, nat) {
    var (username, p1) := ReadString(data, p);
    var (token, p2) := ReadInt(data, p1, 4);
    var (n, p3) := ReadInt(data, p2, 4);
    var (files, p4) := ReadFiles(data, p3, n, username, []);
    var (slots, p5) := ReadInt(data, p4, 1);
    var (speed, p6) := ReadInt(data, p5, 4);
    (SearchResult(token, files, slots, speed, username), p6)
  }

  // ----- Writing

  // A file as it is written: with an unused code byte and an unused extension, and attributes in any order.
  datatype Listed = Listed(code: byte, name: Bytes, size: nat, extension: Bytes, attribs: seq<(nat, nat)>) {
    ghost predicate Valid() {
      && |name| < WIDTH32 && size < WIDTH32 * WIDTH32 && |extension| < WIDTH32 && |attribs| < WIDTH32
      && forall a | a in attribs :: a.0 < WIDTH32 && a.1 < WIDTH32
    }

    function Written(): Bytes {
      Le(code, 1) + (Counted(name) + (Le(size, 8) + (Counted(extension)
      + (Le(|attribs|, 4) + AttribBytes(attribs)))))
    }

    // The file that the record stands for.
    function Meant(username: Bytes): File {
      File(username, FromWire(name), size, FromMap(Lasting(attribs, map[])))
    }
  }

  function AttribBytes(attribs: seq<(nat, nat)>): Bytes {
    if attribs == [] then [] else Le(attribs[0].0, 4) + (Le(attribs[0].1, 4) + AttribBytes(attribs[1..]))
  }

  // The last value of every key.
  function Lasting(attribs: seq<(nat, nat)>, before: map<nat, nat>): map<nat, nat>
    decreases |attribs|
  {
    if attribs == [] then before else Lasting(attribs[1..], before[attribs[0].0 := attribs[0].1])
  }

  function FilesBytes(files: seq<Listed>): Bytes {
    if files == [] then [] else files[0].Written() + FilesBytes(files[1..])
  }

  function ResultBytes(username: Bytes, token: nat, files: seq<Listed>, slots: byte, speed: nat): Bytes {
    Counted(username) + (Le(token, 4) + (Le(|files|, 4) + (FilesBytes(files) + (Le(slots, 1) + Le(speed, 4)))))
  }

  function AllMeant(files: seq<Listed>, username: Bytes): seq<File> {
    seq(|files|, i requires 0 <= i < |files| => files[i].Meant(username))
  }

  ghost predicate ValidResult(username: Bytes, token: nat, files: seq<Listed>, speed: nat) {
    |username| < WIDTH32 && token < WIDTH32 && |files| < WIDTH32 && speed < WIDTH32 && AllValid(files)
  }

  ghost predicate AllValid(files: seq<Listed>) {
    forall f | f in files :: f.Valid()
  }

  // ----- Reading undoes writing

  lemma IntThen(data: Bytes, p: nat, v: nat, n: nat, rest: Bytes)
    requires At(data, p, Le(v, n) + rest) && v < Pow256(n)
    ensures ReadInt(data, p, n) == (v, p + n) && At(data, p + n, rest)
  {
    AtSplit(data, p, Le(v, n), rest);
    IntBack(data, p, v, n);
  }

  lemma StringThen(data: Bytes, p: nat, text: Bytes, rest: Bytes)
    requires At(data, p, Counted(text) + rest) && |text| < WIDTH32
    ensures ReadString(data, p) == (text, p + |Counted(text)|) && At(data, p + |Counted(text)|, rest)
  {
    AtSplit(data, p, Counted(text), rest);
    StringBackIff(data, p, text);
  }

  lemma {:induction false} AttribsBack(data: Bytes, p: nat, attribs: seq<(nat, nat)>, before: map<nat, nat>)
    requires At(data, p, AttribBytes(attribs))
    requires forall a | a in attribs :: a.0 < WIDTH32 && a.1 < WIDTH32
    ensures ReadAttribs(data, p, |attribs|, before) == (Lasting(attribs, before), p + |AttribBytes(attribs)|)
    decreases |attribs|
  {
    Widths();
    if attribs != [] {
      var (key, value) := attribs[0];
      hide At, ReadInt, Pow256, Le;
      assert attribs[0] in attribs;
      IntThen(data, p, key, 4, Le(value, 4) + AttribBytes(attribs[1..]));
      IntThen(data, p + 4, value, 4, AttribBytes(attribs[1..]));
      AttribsBack(data, p + 8, attribs[1..], before[key := value]);
    }
  }

  lemma FileBack(data: Bytes, p: nat, f: Listed, username: Bytes)
    requires f.Valid() && At(data, p, f.Written())
    ensures ReadFile(data, p, username) == (f.Meant(username), p + |f.Written()|)
  {
    Widths();
    hide At, ReadInt, ReadString, Pow256, Le, Counted, ReadAttribs, Lasting, AttribBytes, FromMap, FromWire;
    var attribs := AttribBytes(f.attribs);
    var counted := Le(|f.attribs|, 4) + attribs;
    var extended := Counted(f.extension) + counted;
    IntThen(data, p, f.code, 1, Counted(f.name) + (Le(f.size, 8) + extended));
    StringThen(data, p + 1, f.name, Le(f.size, 8) + extended);
    var p2 := p + 1 + |Counted(f.name)|;
    IntThen(data, p2, f.size, 8, extended);
    StringThen(data, p2 + 8, f.extension, counted);
    var p4 := p2 + 8 + |Counted(f.extension)|;
    IntThen(data, p4, |f.attribs|, 4, attribs);
    AttribsBack(data, p4 + 4, f.attribs, map[]);
  }

  lemma {:induction false} FilesBack(data: Bytes, p: nat, listed: seq<Listed>, username: Bytes, before: seq<File>)
    requires At(data, p, FilesBytes(listed)) && AllValid(listed)
    ensures ReadFiles(data, p, |listed|, username, before)
         == (before + AllMeant(listed, username), p + |FilesBytes(listed)|)
    decreases |listed|
  {
    hide AllMeant, AllValid, FilesBytes, ReadFile, ReadFiles, Listed.Written, Listed.Meant, Listed.Valid, At;
    if listed == [] {
      FilesDone(data, p, username, before);
    } else {
      var f := listed[0];
      ValidNext(listed);
      FilesBytesNext(listed);
      AtSplit(data, p, f.Written(), FilesBytes(listed[1..]));
      FileBack(data, p, f, username);
      FilesBack(data, p + |f.Written()|, listed[1..], username, before + [f.Meant(username)]);
      FilesThen(data, p, listed, username, before);
    }
  }

  lemma FilesDone(data: Bytes, p: nat, username: Bytes, files: seq<File>)
    ensures ReadFiles(data, p, 0, username, files) == (files + AllMeant([], username), p + |FilesBytes([])|)
  {
    assert files + AllMeant([], username) == files;
  }

  lemma FilesThen(data: Bytes, p: nat, listed: seq<Listed>, username: Bytes, before: seq<File>)
    requires listed != []
    requires ReadFile(data, p, username) == (listed[0].Meant(username), p + |listed[0].Written()|)
    requires ReadFiles(data, p + |listed[0].Written()|, |listed[1..]|, username, before + [listed[0].Meant(username)])
          == (before + [listed[0].Meant(username)] + AllMeant(listed[1..], username),
              p + |listed[0].Written()| + |FilesBytes(listed[1..])|)
    ensures ReadFiles(data, p, |listed|, username, before)
         == (before + AllMeant(listed, username), p + |FilesBytes(listed)|)
  {
    MeantNext(listed, username, before);
    FilesBytesNext(listed);
    NextFile(data, p, |listed|, username, before);
    hide AllMeant, FilesBytes, ReadFile, ReadFiles, Listed.Written, Listed.Meant;
  }

  lemma FilesBytesNext(files: seq<Listed>)
    requires files != []
    ensures FilesBytes(files) == files[0].Written() + FilesBytes(files[1..])
  {
    hide Listed.Written;
  }

  lemma NextFile(data: Bytes, p: nat, n: nat, username: Bytes, files: seq<File>)
    requires n > 0
    ensures ReadFiles(data, p, n, username, files)
         == ReadFiles(data, ReadFile(data, p, username).1, n - 1, username, files + [ReadFile(data, p, username).0])
  {
    hide ReadFile;
  }

  lemma ValidNext(listed: seq<Listed>)
    requires listed != [] && AllValid(listed)
    ensures listed[0].Valid() && AllValid(listed[1..])
  {
    hide Listed.Valid;
  }

  lemma MeantNext(listed: seq<Listed>, username: Bytes, before: seq<File>)
    requires listed != []
    ensures before + AllMeant(listed, username)
         == before + [listed[0].Meant(username)] + AllMeant(listed[1..], username)
  {
    hide Listed.Meant;
  }

  // Parsing a written search response recovers it and stops just past it.
  lemma ResultBack(data: Bytes, p: nat, username: Bytes, token: nat, files: seq<Listed>, slots: byte, speed: nat)
    requires ValidResult(username, token, files, speed)
    requires At(data, p, ResultBytes(username, token, files, slots, speed))
    ensures ReadResult(data, p) == (SearchResult(token, AllMeant(files, username), slots, speed, username),
                                    p + |ResultBytes(username, token, files, slots, speed)|)
  {
    Widths();
    hide At, ReadInt, ReadString, Pow256, Le, Counted, ReadFiles, FilesBytes, AllMeant, AllValid;
    var tail := Le(slots, 1) + Le(speed, 4);
    var listed := FilesBytes(files) + tail;
    StringThen(data, p, username, Le(token, 4) + (Le(|files|, 4) + listed));
    var p1 := p + |Counted(username)|;
    IntThen(data, p1, token, 4, Le(|files|, 4) + listed);
    IntThen(data, p1 + 4, |files|, 4, listed);
    AtSplit(data, p1 + 8, FilesBytes(files), tail);
    FilesBack(data, p1 + 8, files, username, []);
    assert [] + AllMeant(files, username) == AllMeant(files, username);
    var p4 := p1 + 8 + |FilesBytes(files)|;
    IntThen(data, p4, slots, 1, Le(speed, 4));
    IntBack(data, p4 + 1, speed, 4);
  }

  // With distinct keys every attribute is found again, and no other.
  lemma {:induction false} LastingDistinct(attribs: seq<(nat, nat)>, before: map<nat, nat>)
    requires forall i, j | 0 <= i < j < |attribs| :: attribs[i].0 != attribs[j].0
    ensures var all := Lasting(attribs, before);
            && (forall i | 0 <= i < |attribs| :: attribs[i].0 in all && all[attribs[i].0] == attribs[i].1)
            && (forall k | (forall i | 0 <= i < |attribs| :: attribs[i].0 != k) :: Get(all, k) == Get(before, k))
    decreases |attribs|
  {
    if attribs != [] {
      var before' := before[attribs[0].0 := attribs[0].1];
      LastingDistinct(attribs[1..], before');
      var all := Lasting(attribs, before);
      forall i | 0 <= i < |attribs| ensures attribs[i].0 in all && all[attribs[i].0] == attribs[i].1 {
        if i == 0 {
          assert Get(all, attribs[0].0) == Get(before', attribs[0].0);
        } else {
          assert attribs[1..][i - 1] == attribs[i];
        }
      }
    }
  }

  // ----- No parser leaves the data

  lemma {:induction false} AttribsInside(data: Bytes, p: nat, n: nat, attribs: map<nat, nat>)
    requires p <= |data|
    ensures p <= ReadAttribs(data, p, n, attribs).1 <= |data|
    decreases n
  {
    if n != 0 {
      AttribsInside(data, ReadInt(data, ReadInt(data, p, 4).1, 4).1, n - 1,
                    attribs[ReadInt(data, p, 4).0 := ReadInt(data, ReadInt(data, p, 4).1, 4).0]);
    }
  }

  lemma FileInside(data: Bytes, p: nat, username: Bytes)
    requires p <= |data|
    ensures p <= ReadFile(data, p, username).1 <= |data|
  {
    var p1 := ReadInt(data, p, 1).1;
    var p2 := ReadString(data, p1).1;
    var p4 := ReadString(data, ReadInt(data, p2, 8).1).1;
    AttribsInside(data, ReadInt(data, p4, 4).1, ReadInt(data, p4, 4).0, map[]);
    hide ReadAttribs, FromMap, FromWire;
  }

  lemma {:induction false} FilesInside(data: Bytes, p: nat, n: nat, username: Bytes, files: seq<File>)
    requires p <= |data|
    ensures var (files', p') := ReadFiles(data, p, n, username, files); p <= p' <= |data| && |files'| == |files| + n
    decreases n
  {
    if n != 0 {
      hide ReadFile;
      FileInside(data, p, username);
      var (file, p1) := ReadFile(data, p, username);
      FilesInside(data, p1, n - 1, username, files + [file]);
    }
  }

  // Whatever the bytes are, the response has as many files as announced, and the cursor stays within the data.
  lemma ResultInside(data: Bytes, p: nat)
    requires p <= |data|
    ensures p <= ReadResult(data, p).1 <= |data|
    ensures |ReadResult(data, p).0.files| == ReadInt(data, ReadInt(data, ReadString(data, p).1, 4).1, 4).0
  {
    var (username, p1) := ReadString(data, p);
    var p2 := ReadInt(data, p1, 4).1;
    FilesInside(data, ReadInt(data, p2, 4).1, ReadInt(data, p2, 4).0, username, []);
    hide ReadFiles;
  }

  // ----- Transfer requests

  datatype Transfer = Transfer(direction: nat, token: nat, filename: Bytes, size: nat)

  function ReadTransfer(data: Bytes, p: nat): (Transfer, nat) {
    var (direction, p1) := ReadInt(data, p, 4);
    var (token, p2) := ReadInt(data, p1, 4);
    var (filename, p3) := ReadString(data, p2);
    var (size, p4) := ReadInt(data, p3, 8);
    (Transfer(direction, token, FromWire(filename), size), p4)
  }

  // A request is read back with its size if that follows and with size 0 if less than eight bytes do, as in
  // the requests that the client itself builds.
  lemma TransferBack(data: Bytes, p: nat, t: Transfer, rest: Bytes)
    requires t.direction < WIDTH32 && t.token < WIDTH32 && |t.filename| < WIDTH32
    requires p <= |data|
    requires data[p..] == Le(t.direction, 4) + (Le(t.token, 4) + (Counted(t.filename) + rest))
    ensures var named := t.(filename := FromWire(t.filename));
            && (|rest| < 8 ==> ReadTransfer(data, p) == (named.(size := 0), |data| - |rest|))
            && (|rest| >= 8 ==> ReadTransfer(data, p) == (named.(size := FromLe(rest[..8])), |data| - |rest| + 8))
  {
    Widths();
    var q := p + 8 + |Counted(t.filename)|;
    var named := Counted(t.filename) + rest;
    hide FromWire, ReadString, ReadInt, Counted, Le, FromLe, Pow256;
    assert At(data, p, Le(t.direction, 4) + (Le(t.token, 4) + named));
    IntThen(data, p, t.direction, 4, Le(t.token, 4) + named);
    IntThen(data, p + 4, t.token, 4, named);
    StringThen(data, p + 8, t.filename, rest);
    hide At;
    SizeThen(data, q, rest);
  }

  lemma SizeThen(data: Bytes, q: nat, rest: Bytes)
    requires q <= |data| && data[q..] == rest
    ensures ReadInt(data, q, 8) == if |rest| < 8 then (0, q) else (FromLe(rest[..8]), q + 8)
  {
    hide FromLe;
    if |rest| >= 8 {
      assert data[q..q + 8] == rest[..8];
    }
  }
}
