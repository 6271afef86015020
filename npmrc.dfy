/** The `.npmrc` reader `config(path)`: one `key = value` assignment per line. */
module Npmrc {
  import opened Wrappers
  import opened Text
  import opened Layers

  /** `f.trim().split(/\n/)`: the pieces of the trimmed text between its line
      feeds, in order; none contains a line feed. */
  function Lines(text: string): (lines: seq<string>)
    ensures |lines| >= 1 && Join(lines, '\n') == Trim(text)
    ensures forall i | 0 <= i < |lines| :: '\n' !in lines[i]
  {
    SplitOn(Trim(text), '\n')
  }

  // `line.trim().split(/\s*=\s*/)`: the pieces between the `=` signs, each
  // without the white space around it.
  function Segments(line: string): seq<string> {
    TrimEach(SplitOn(Trim(line), '='))
  }

  /** The segments of a line are the pieces of the trimmed line between its `=`
      signs, in order, each with exactly its surrounding white space removed;
      no segment contains `=`. This is splitting the trimmed line on the
      pattern `\s*=\s*`, whose separator is an `=` with all the white space
      around it. */
  lemma SegmentsOfLine(line: string)
    ensures Join(SplitOn(Trim(line), '='), '=') == Trim(line)
    ensures StrippedPieces(SplitOn(Trim(line), '='), Segments(line), '=')
  {
    PiecesTrimmed(SplitOn(Trim(line), '='), Segments(line), '=');
  }

  /** `stripped` holds, piece for piece, a stretch of each piece with nothing but
      white space around it and no white space at either of its own ends, and
      none of them contains `c`. */
  ghost predicate StrippedPieces(pieces: seq<string>, stripped: seq<string>, c: char) {
    && |stripped| == |pieces|
    && forall i | 0 <= i < |stripped| ::
         && c !in stripped[i]
         && (stripped[i] == "" || (!IsSpace(stripped[i][0]) && !IsSpace(stripped[i][|stripped[i]| - 1])))
         && exists a :: Surrounded(pieces[i], a, stripped[i])
  }

  /** Trimming pieces that lack a character strips them in that sense. */
  lemma PiecesTrimmed(pieces: seq<string>, trimmed: seq<string>, c: char)
    requires forall i | 0 <= i < |pieces| :: c !in pieces[i]
    requires trimmed == TrimEach(pieces)
    ensures StrippedPieces(pieces, trimmed, c)
  {
    forall i | 0 <= i < |trimmed|
      ensures c !in trimmed[i]
      ensures trimmed[i] == "" || (!IsSpace(trimmed[i][0]) && !IsSpace(trimmed[i][|trimmed[i]| - 1]))
      ensures exists a :: Surrounded(pieces[i], a, trimmed[i])
    {
      assert trimmed[i] == Trim(pieces[i]);
      TrimSurrounded(pieces[i]);
      var a :| Surrounded(pieces[i], a, trimmed[i]);
      assert forall j | 0 <= j < |trimmed[i]| :: trimmed[i][j] == pieces[i][a + j];
    }
  }

  /** The assignment segments make: the first is bound to the second, when
      there are at least two. */
  function Assignment(split: seq<string>): map<string, string> {
    if |split| < 2 then map[] else map[split[0] := split[1]]
  }

  /** The assignment a line makes. */
  function LineLayer(line: string): map<string, string> {
    Assignment(Segments(line))
  }

  /** `f` applied to every element, in order. */
  function Each<T, U>(f: T -> U, xs: seq<T>): (ys: seq<U>)
    ensures |ys| == |xs|
  {
    if |xs| == 0 then [] else Each(f, xs[..|xs| - 1]) + [f(xs[|xs| - 1])]
  }

  lemma EachStep<T, U>(f: T -> U, xs: seq<T>, i: nat)
    requires i < |xs|
    ensures Each(f, xs[..i + 1]) == Each(f, xs[..i]) + [f(xs[i])]
  {
    assert xs[..i + 1][..i] == xs[..i];
  }

  lemma {:induction false} EachIndex<T, U>(f: T -> U, xs: seq<T>, i: nat)
    requires i < |xs|
    ensures Each(f, xs)[i] == f(xs[i])
  {
    var n := |xs| - 1;
    if i < n {
      EachIndex(f, xs[..n], i);
    }
  }

  /** One layer per line, in order. */
  function LineLayers(lines: seq<string>): (layers: seq<map<string, string>>)
    ensures |layers| == |lines|
  {
    Each(LineLayer, lines)
  }

  lemma LineLayersStep(lines: seq<string>, i: nat)
    requires i < |lines|
    ensures LineLayers(lines[..i + 1]) == LineLayers(lines[..i]) + [LineLayer(lines[i])]
  {
    EachStep(LineLayer, lines, i);
  }

  lemma LineLayersIndex(lines: seq<string>, i: nat)
    requires i < |lines|
    ensures LineLayers(lines)[i] == LineLayer(lines[i])
  {
    EachIndex(LineLayer, lines, i);
  }

  /** What `fs.readFileSync` returns: a Buffer of the file's bytes when called
      without an encoding, the decoded string when called with one. */
  datatype Contents = Buffer(bytes: seq<bv8>) | Chars(text: string)

  /** `fs.readFileSync(path)`, or `fs.readFileSync(path, 'utf8')` when `encoded`;
      `file` is the file's bytes, `None` when it cannot be read, which throws
      (`None` here too). `decode` is the UTF-8 decoding, which is not part of
      this model. */
  function ReadFileSync(file: Option<seq<bv8>>, encoded: bool, decode: seq<bv8> -> string): (r: Option<Contents>)
    ensures r.None? <==> file.None?
    ensures r.Some? ==> (r.value.Chars? <==> encoded)
  {
    match file
    case None => None
    case Some(bytes) => Some(if encoded then Chars(decode(bytes)) else Buffer(bytes))
  }

  /** `f.trim().split(/\n/)`: a Buffer has no `trim`, so calling it throws (`None`). */
  function LinesOf(contents: Contents): (lines: Option<seq<string>>)
    ensures lines.Some? <==> contents.Chars?
  {
    match contents
    case Buffer(_) => None
    case Chars(text) => Some(Lines(text))
  }

  /** The body of `config(path)` with the loop as written, reading the file
      with or without an encoding: whatever is thrown before the loop is
      caught and leaves the empty object; only a decoded file reaches the loop. */
  method ReadConfig(file: Option<seq<bv8>>, encoded: bool, decode: seq<bv8> -> string)
    returns (configs: map<string, Option<string>>)
    ensures !(file.Some? && encoded) ==> configs == map[]
    ensures file.Some? && encoded ==>
              configs == Undefined(KeysOf(LineLayers(Lines(decode(file.value)))))
  {
    configs := map[];
    var read := ReadFileSync(file, encoded, decode);
    if read.Some? {
      var lines := LinesOf(read.value);
      if lines.Some? {
        configs := CopyLines(lines.value);
      }
    }
  }

  /** The reader as written calls `fs.readFileSync(path)` without an encoding,
      so every file, readable or not, gives the empty object. */
  method ReadAsWritten(file: Option<seq<bv8>>, decode: seq<bv8> -> string)
    returns (configs: map<string, Option<string>>)
    ensures configs == map[]
  {
    configs := ReadConfig(file, false, decode);
  }

  /** Every key bound to `undefined` (`None`). */
  function Undefined(keys: set<string>): (m: map<string, Option<string>>)
    ensures m.Keys == keys
    ensures forall k | k in m :: m[k] == None
  {
    map k | k in keys :: None
  }

  /** A map whose every key is bound to `undefined` is `Undefined` of its keys. */
  lemma UndefinedExactly(m: map<string, Option<string>>)
    requires forall k | k in m :: m[k] == None
    ensures m == Undefined(m.Keys)
  {
  }

  /** The line loop as written: `configs[split[0]] = configs[split[1]]` looks the
      right-hand side up among the keys read so far, so every assigned key of
      the result is `undefined` (`None`). */
  method ParseAsWritten(text: string) returns (configs: map<string, Option<string>>)
    ensures configs.Keys == KeysOf(LineLayers(Lines(text)))
    ensures forall k | k in configs :: configs[k] == None
    ensures configs == Undefined(KeysOf(LineLayers(Lines(text))))
  {
    configs := CopyLines(Lines(text));
  }

  method CopyLines(lines: seq<string>) returns (configs: map<string, Option<string>>)
    ensures configs.Keys == KeysOf(LineLayers(lines))
    ensures forall k | k in configs :: configs[k] == None
    ensures configs == Undefined(KeysOf(LineLayers(lines)))
  {
    configs := map[];
    var i := 0;
    while i < |lines|
      invariant 0 <= i <= |lines|
      invariant configs.Keys == KeysOf(LineLayers(lines[..i]))
      invariant forall k | k in configs :: configs[k] == None
    {
      var split := Segments(lines[i]);
      configs := CopyLine(configs, split);
      LineLayersStep(lines, i);
      MergedAppend(LineLayers(lines[..i]), LineLayer(lines[i]));
      i := i + 1;
    }
    assert lines[..|lines|] == lines;
    UndefinedExactly(configs);
  }

  /** One line of the loop as written: the first segment is set to the value
      of the key named by the second, `undefined` throughout. */
  method CopyLine(configs: map<string, Option<string>>, split: seq<string>) returns (next: map<string, Option<string>>)
    requires forall k | k in configs :: configs[k] == None
    ensures next.Keys == configs.Keys + Assignment(split).Keys
    ensures forall k | k in next :: next[k] == None
  {
    if |split| >= 2 {
      var value := if split[1] in configs then configs[split[1]] else None;
      next := configs[split[0] := value];
      KeysAfterUpdate(configs, split[0], value);
    } else {
      next := configs;
      assert configs.Keys + {} == configs.Keys;
    }
  }

  /** The intended line loop, `configs[split[0]] = split[1]`: later lines override earlier ones. */
  method ParseIntended(text: string) returns (configs: map<string, string>)
    ensures configs == Merged(LineLayers(Lines(text)))
  {
    configs := AssignLines(Lines(text));
  }

  method AssignLines(lines: seq<string>) returns (configs: map<string, string>)
    ensures configs == Merged(LineLayers(lines))
  {
    configs := map[];
    var i := 0;
    while i < |lines|
      invariant 0 <= i <= |lines|
      invariant configs == Merged(LineLayers(lines[..i]))
    {
      var split := Segments(lines[i]);
      IntendedStep(LineLayers(lines[..i]), configs, split);
      if |split| >= 2 {
        configs := configs[split[0] := split[1]];
      }
      LineLayersStep(lines, i);
      i := i + 1;
    }
    assert lines[..|lines|] == lines;
  }

  /** One line of the intended loop adds that line's assignment as a new top layer. */
  lemma IntendedStep(layers: seq<map<string, string>>, configs: map<string, string>, split: seq<string>)
    requires configs == Merged(layers)
    ensures (if |split| >= 2 then configs[split[0] := split[1]] else configs) == Merged(layers + [Assignment(split)])
  {
    if |split| >= 2 {
      UpdateIsOverride(configs, split[0], split[1]);
    } else {
      assert configs + map[] == configs;
    }
    MergedAppend(layers, Assignment(split));
  }

  /** The intended reader: the file read as UTF-8 text and parsed with the
      intended loop; an unreadable file gives the empty object. */
  method ReadDecoded(file: Option<seq<bv8>>, decode: seq<bv8> -> string)
    returns (configs: map<string, string>)
    ensures file.None? ==> configs == map[]
    ensures file.Some? ==> configs == Merged(LineLayers(Lines(decode(file.value))))
  {
    configs := map[];
    var read := ReadFileSync(file, true, decode);
    if read.Some? {
      var lines := LinesOf(read.value);
      if lines.Some? {
        configs := ParseIntended(read.value.text);
      }
    }
  }

  /** With the intended loop a key is bound to the right-hand side of the last
      line assigning it, and the keys are exactly the assigned ones (the same
      keys the loop as written produces). */
  lemma IntendedLastAssignmentWins(lines: seq<string>, i: nat)
    requires i < |lines| && |Segments(lines[i])| >= 2
    requires forall j | i < j < |lines| :: Segments(lines[i])[0] !in LineLayer(lines[j])
    ensures var split := Segments(lines[i]);
            var configs := Merged(LineLayers(lines));
            split[0] in configs && configs[split[0]] == split[1]
    ensures Merged(LineLayers(lines)).Keys == KeysOf(LineLayers(lines))
  {
    var layers := LineLayers(lines);
    var split := Segments(lines[i]);
    LineLayersIndex(lines, i);
    assert layers[i] == map[split[0] := split[1]];
    forall j | i < j < |layers|
      ensures split[0] !in layers[j]
    {
      LineLayersIndex(lines, j);
    }
    LastDefinerWins(layers, i, split[0]);
    MergedAgrees(layers);
  }

  /** The one-line file `a=b` assigns `b` to `a` under the intended reading; the
      loop as written gives `a` the value `undefined`. */
  lemma AssignmentLineExample()
    ensures Lines("a=b") == ["a=b"]
    ensures Segments("a=b") == ["a", "b"]
    ensures Merged(LineLayers(Lines("a=b"))) == map["a" := "b"]
    ensures KeysOf(LineLayers(Lines("a=b"))) == {"a"}
    ensures Undefined(KeysOf(LineLayers(Lines("a=b")))) == map["a" := None]
  {
    TrimmedAlready("a=b");
    SplitWithout("a=b", '\n');
    assert Lines("a=b") == ["a=b"];
    SplitWithout("b", '=');
    assert "a=b"[1..] == "=b" && "=b"[1..] == "b";
    assert SplitOn("=b", '=') == [""] + SplitOn("b", '=');
    assert SplitOn("=b", '=') == ["", "b"];
    assert "a=b"[0] == 'a' && ['a'] + "" == "a";
    assert SplitOn("a=b", '=') == [['a'] + SplitOn("=b", '=')[0]] + SplitOn("=b", '=')[1..];
    assert SplitOn("a=b", '=') == ["a", "b"];
    TrimmedAlready("a");
    TrimmedAlready("b");
    assert Segments("a=b") == ["a", "b"];
    assert LineLayer("a=b") == map["a" := "b"];
    assert LineLayers(["a=b"]) == [map["a" := "b"]];
    MergedOfOne(map["a" := "b"]);
  }

  /** A file holding the three bytes `a=b`: the reader as written gives the
      empty object, the intended reader binds `a` to `b`, and reading with an
      encoding but the loop as written binds `a` to `undefined`. */
  method AssignmentFileExample(decode: seq<bv8> -> string)
    returns (asWritten: map<string, Option<string>>, decoded: map<string, string>, looped: map<string, Option<string>>)
    requires decode([0x61, 0x3D, 0x62]) == "a=b"
    ensures asWritten == map[]
    ensures decoded == map["a" := "b"]
    ensures looped == map["a" := None]
  {
    var file := Some([0x61, 0x3D, 0x62]);
    asWritten := ReadAsWritten(file, decode);
    decoded := ReadDecoded(file, decode);
    looped := ReadConfig(file, true, decode);
    AssignmentLineExample();
  }
}
