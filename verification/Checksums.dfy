/** checksums.sha256: printing it and checking it. SHA-256 in hex is a function `sha` whose values are not blank. */
module Checksums {
  import opened Text
  import opened Domain

  type Data = seq<bv8>

  type Files = map<string, Data>

  const CHECKSUMS := "checksums.sha256"

  /** Hex digits: at least one, none of them white space. */
  predicate Solid(h: string) {
    h != "" && forall i :: 0 <= i < |h| ==> !IsSpace(h[i])
  }

  ghost predicate HexHash(sha: Data -> string) {
    forall d :: Solid(sha(d))
  }

  // ---------------------------------------------------------------- lines

  /** strings.Split(s, "\n"). */
  function Split(s: string): (r: seq<string>)
    ensures r != []
  {
    if s == "" then [""]
    else
      var rest := Split(s[1..]);
      if s[0] == '\n' then [""] + rest else [[s[0]] + rest[0]] + rest[1..]
  }

  /** strings.Join(lines, "\n"). */
  function Join(lines: seq<string>): string {
    if lines == [] then ""
    else if |lines| == 1 then lines[0]
    else lines[0] + "\n" + Join(lines[1..])
  }

  function SplitAll(lines: seq<string>): seq<string> {
    if lines == [] then [] else Split(lines[0]) + SplitAll(lines[1..])
  }

  lemma {:induction false} SplitAtNewline(a: string, b: string)
    ensures Split(a + "\n" + b) == Split(a) + Split(b)
  {
    var whole := a + "\n" + b;
    if a == "" {
      assert whole[0] == '\n' && whole[1..] == b;
    } else {
      var front, back := Split(a[1..]), Split(b);
      SplitAtNewline(a[1..], b);
      assert whole[0] == a[0] && whole[1..] == a[1..] + "\n" + b;
      SplitHead(a[0], front, back);
    }
  }

  lemma SplitHead(c: char, front: seq<string>, back: seq<string>)
    requires front != []
    ensures [""] + (front + back) == [""] + front + back
    ensures [[c] + (front + back)[0]] + (front + back)[1..] == [[c] + front[0]] + front[1..] + back
  {
    assert (front + back)[1..] == front[1..] + back;
  }

  lemma {:induction false} SplitPlain(s: string)
    requires '\n' !in s
    ensures Split(s) == [s]
  {
    if s != "" {
      SplitPlain(s[1..]);
      assert [s[0]] + s[1..] == s;
    }
  }

  /** Splitting what was joined gives the pieces back, and an empty line at the end. */
  lemma {:induction false} SplitJoined(lines: seq<string>)
    ensures Split(Join(lines) + "\n") == (if lines == [] then [""] else SplitAll(lines)) + [""]
  {
    if lines == [] {
      SplitAtNewline("", "");
      assert "" + "\n" + "" == Join(lines) + "\n";
    } else if |lines| == 1 {
      SplitAtNewline(lines[0], "");
      assert lines[0] + "\n" + "" == Join(lines) + "\n";
      assert SplitAll(lines) == Split(lines[0]) + SplitAll([]);
    } else {
      SplitJoined(lines[1..]);
      SplitAtNewline(lines[0], Join(lines[1..]) + "\n");
      assert Join(lines) + "\n" == lines[0] + "\n" + (Join(lines[1..]) + "\n");
      assert Split(lines[0]) + (SplitAll(lines[1..]) + [""]) == SplitAll(lines) + [""];
    }
  }

  // ---------------------------------------------------------------- printing

  function Line(sha: Data -> string, files: Files, name: string): string
    requires name in files
  {
    sha(files[name]) + "  " + name
  }

  function Listed(names: seq<string>): seq<string> {
    if names == [] then []
    else Listed(names[..|names| - 1]) + if names[|names| - 1] == CHECKSUMS then [] else [names[|names| - 1]]
  }

  ghost predicate NamesOf(names: seq<string>, files: Files) {
    forall n :: n in names <==> n in files
  }

  lemma {:induction false} ListedNames(names: seq<string>)
    ensures forall n :: n in Listed(names) <==> n in names && n != CHECKSUMS
  {
    if names != [] {
      ListedNames(names[..|names| - 1]);
    }
  }

  function Lines(sha: Data -> string, files: Files, names: seq<string>): seq<string>
    requires forall n :: n in names ==> n in files
  {
    if names == [] then []
    else
      assert names[0] in names;
      [Line(sha, files, names[0])] + Lines(sha, files, names[1..])
  }

  ghost function Print(sha: Data -> string, files: Files, names: seq<string>): string
    requires NamesOf(names, files)
  {
    ListedNames(names);
    Join(Lines(sha, files, Listed(names))) + "\n"
  }

  lemma {:induction false} LinesAppend(sha: Data -> string, files: Files, names: seq<string>, name: string)
    requires name in files && forall n :: n in names ==> n in files
    ensures Lines(sha, files, names + [name]) == Lines(sha, files, names) + [Line(sha, files, name)]
  {
    if names == [] {
      assert names + [name] == [name];
      assert [name][1..] == [];
    } else {
      assert (names + [name])[1..] == names[1..] + [name];
      assert names[0] in names;
      LinesAppend(sha, files, names[1..], name);
    }
  }

  /** checksumFile; `names` are the file names in the order sortedFileNames puts them. */
  method ChecksumFile(sha: Data -> string, files: Files, names: seq<string>) returns (text: string)
    requires NamesOf(names, files)
    ensures text == Print(sha, files, names)
  {
    var lines := [];
    ListedNames(names);
    for i := 0 to |names|
      invariant forall n :: n in Listed(names[..i]) ==> n in files
      invariant lines == Lines(sha, files, Listed(names[..i]))
    {
      assert names[..i + 1][..i] == names[..i];
      assert names[i] in names;
      if names[i] != CHECKSUMS {
        LinesAppend(sha, files, Listed(names[..i]), names[i]);
        lines := lines + [Line(sha, files, names[i])];
      } else {
        assert Listed(names[..i]) + [] == Listed(names[..i]);
      }
    }
    assert names[..|names|] == names;
    text := Join(lines) + "\n";
  }

  // ---------------------------------------------------------------- checking

  datatype LineError = BadFormat | Missing | Mismatch

  /** The first place where two spaces stand together. */
  function DoubleSpace(t: string): Option<nat> {
    if |t| < 2 then None
    else if t[0] == ' ' && t[1] == ' ' then Some(0)
    else match DoubleSpace(t[1..])
      case Some(i) => Some(i + 1)
      case None => None
  }

  lemma {:induction false} DoubleSpaceInside(t: string)
    ensures DoubleSpace(t).Some? ==> DoubleSpace(t).value + 2 <= |t|
  {
    if |t| >= 2 {
      DoubleSpaceInside(t[1..]);
    }
  }

  /** One turn of the loop in validateChecksumFile. */
  function CheckLine(sha: Data -> string, line: string, files: Files): Option<LineError> {
    var t := TrimSpace(line);
    DoubleSpaceInside(t);
    if t == "" then None
    else match DoubleSpace(t)
      case None => Some(BadFormat)
      case Some(i) =>
        if t[i + 2..] !in files then Some(Missing)
        else if sha(files[t[i + 2..]]) != t[..i] then Some(Mismatch)
        else None
  }

  predicate AllPass(sha: Data -> string, lines: seq<string>, files: Files) {
    forall i :: 0 <= i < |lines| ==> CheckLine(sha, lines[i], files).None?
  }

  /** The file is accepted: no line is refused. */
  predicate Accepts(sha: Data -> string, text: string, files: Files) {
    AllPass(sha, Split(text), files)
  }

  method ValidateChecksumFile(sha: Data -> string, text: string, files: Files) returns (error: Option<LineError>)
    ensures error.None? <==> Accepts(sha, text, files)
    ensures error.Some? ==> exists line :: line in Split(text) && CheckLine(sha, line, files) == error
  {
    var lines := Split(text);
    for i := 0 to |lines|
      invariant forall j :: 0 <= j < i ==> CheckLine(sha, lines[j], files).None?
    {
      error := CheckLine(sha, lines[i], files);
      if error.Some? {
        assert lines[i] in lines;
        return error;
      }
    }
    return None;
  }

  // ---------------------------------------------------------------- what a printed line is read as

  lemma {:induction false} TrimRightAppend(a: string, b: string)
    ensures TrimRight(a + b) == if TrimRight(b) == "" then TrimRight(a) else a + TrimRight(b)
  {
    if b == "" {
      assert a + b == a;
    } else {
      var front := b[..|b| - 1];
      assert (a + b)[..|a + b| - 1] == a + front;
      if IsSpace(b[|b| - 1]) {
        TrimRightAppend(a, front);
      }
    }
  }

  lemma {:induction false} NoDoubleSpace(h: string)
    requires forall i :: 0 <= i < |h| ==> !IsSpace(h[i])
    ensures DoubleSpace(h) == None
  {
    if |h| >= 2 {
      NoDoubleSpace(h[1..]);
    }
  }

  lemma {:induction false} FirstDoubleSpace(h: string, x: string)
    requires forall i :: 0 <= i < |h| ==> !IsSpace(h[i])
    ensures DoubleSpace(h + "  " + x) == Some(|h|)
  {
    if h != "" {
      FirstDoubleSpace(h[1..], x);
      assert (h + "  " + x)[1..] == h[1..] + "  " + x;
    }
  }

  lemma LineTrimmed(h: string, name: string)
    requires Solid(h)
    ensures TrimSpace(h + "  " + name) == if TrimRight(name) == "" then h else h + "  " + TrimRight(name)
  {
    TrimRightAppend(h + "  ", name);
    TrimRightAppend(h, "  ");
    assert TrimRight("  ") == TrimRight(" ") by {
      assert "  "[..1] == " ";
    }
    assert TrimRight(" ") == TrimRight("") by {
      assert " "[..0] == "";
    }
    assert TrimLeft(h + "  " + name) == h + "  " + name;
  }

  /** A printed line passes exactly when its name, without white space at the end, is not empty and names a file
      with that hash. */
  lemma PrintedLine(sha: Data -> string, h: string, name: string, files: Files)
    requires Solid(h)
    ensures CheckLine(sha, h + "  " + name, files).None? <==>
            TrimRight(name) != "" && TrimRight(name) in files && sha(files[TrimRight(name)]) == h
  {
    var n := TrimRight(name);
    LineTrimmed(h, name);
    if n == "" {
      NoDoubleSpace(h);
    } else {
      FirstDoubleSpace(h, n);
      assert (h + "  " + n)[|h| + 2..] == n && (h + "  " + n)[..|h|] == h;
    }
  }

  lemma {:induction false} AllPassAll(sha: Data -> string, lines: seq<string>, files: Files)
    ensures AllPass(sha, SplitAll(lines), files) <==> forall i :: 0 <= i < |lines| ==> AllPass(sha, Split(lines[i]), files)
  {
    if lines != [] {
      AllPassAll(sha, lines[1..], files);
      AllPassAppend(sha, Split(lines[0]), SplitAll(lines[1..]), files);
      assert forall i :: 0 < i < |lines| ==> lines[i] == lines[1..][i - 1];
    }
  }

  lemma AllPassAppend(sha: Data -> string, a: seq<string>, b: seq<string>, files: Files)
    ensures AllPass(sha, a + b, files) <==> AllPass(sha, a, files) && AllPass(sha, b, files)
  {
    assert forall i :: 0 <= i < |b| ==> b[i] == (a + b)[|a| + i];
    assert forall i :: 0 <= i < |a| ==> a[i] == (a + b)[i];
  }

  lemma {:induction false} LinesAt(sha: Data -> string, files: Files, names: seq<string>)
    requires forall n :: n in names ==> n in files
    ensures |Lines(sha, files, names)| == |names|
    ensures forall i :: 0 <= i < |names| ==> names[i] in names && Lines(sha, files, names)[i] == Line(sha, files, names[i])
  {
    if names != [] {
      assert names[0] in names;
      LinesAt(sha, files, names[1..]);
      assert forall i :: 0 < i < |names| ==> names[i] == names[1..][i - 1];
    }
  }

  // ---------------------------------------------------------------- print, then check

  /** For all file names whatever: the print is accepted exactly when every piece of every printed line passes. */
  lemma AcceptsPieces(sha: Data -> string, files: Files, names: seq<string>, found: Files)
    requires NamesOf(names, files)
    ensures Accepts(sha, Print(sha, files, names), found) <==>
            forall n :: n in files && n != CHECKSUMS ==> AllPass(sha, Split(Line(sha, files, n)), found)
  {
    ListedNames(names);
    var listed := Listed(names);
    var lines := Lines(sha, files, listed);
    LinesAt(sha, files, listed);
    SplitJoined(lines);
    BlankPasses(sha, found);
    AllPassAppend(sha, if lines == [] then [""] else SplitAll(lines), [""], found);
    AllPassAll(sha, lines, found);
    forall n | n in files && n != CHECKSUMS ensures exists i :: 0 <= i < |listed| && listed[i] == n {
      assert n in listed;
    }
  }

  lemma BlankPasses(sha: Data -> string, found: Files)
    ensures AllPass(sha, [""], found)
  {
  }

  /** A name the round trip keeps: not empty, without a newline, and without white space at its end; spaces
      inside or in front do no harm. */
  predicate Keeps(name: string) {
    name != "" && '\n' !in name && TrimRight(name) == name
  }

  /** For names without a newline the printed file is accepted exactly when each name, without white space at its
      end, is not empty and names a file with the printed hash. */
  lemma AcceptsExactly(sha: Data -> string, files: Files, names: seq<string>, found: Files)
    requires HexHash(sha) && NamesOf(names, files)
    requires forall n <- files :: '\n' !in n
    ensures Accepts(sha, Print(sha, files, names), found) <==>
            forall n :: n in files && n != CHECKSUMS ==>
              TrimRight(n) != "" && TrimRight(n) in found && sha(found[TrimRight(n)]) == sha(files[n])
  {
    AcceptsPieces(sha, files, names, found);
    forall n | n in files && n != CHECKSUMS
      ensures AllPass(sha, Split(Line(sha, files, n)), found) <==>
              TrimRight(n) != "" && TrimRight(n) in found && sha(found[TrimRight(n)]) == sha(files[n])
    {
      assert Solid(sha(files[n]));
      assert '\n' !in Line(sha, files, n);
      SplitPlain(Line(sha, files, n));
      PrintedLine(sha, sha(files[n]), n, found);
      assert Split(Line(sha, files, n))[0] == Line(sha, files, n);
    }
  }

  /** The check accepts what was printed... */
  lemma PrintAccepted(sha: Data -> string, files: Files, names: seq<string>)
    requires HexHash(sha) && NamesOf(names, files)
    requires forall n <- files :: Keeps(n)
    ensures Accepts(sha, Print(sha, files, names), files)
  {
    AcceptsExactly(sha, files, names, files);
  }

  /** ...and refuses it once a listed file is removed or its hash changes, whatever else changes. */
  lemma TamperingRefused(sha: Data -> string, files: Files, names: seq<string>, found: Files, name: string)
    requires HexHash(sha) && NamesOf(names, files)
    requires forall n <- files :: Keeps(n)
    requires name in files && name != CHECKSUMS
    requires name !in found || sha(found[name]) != sha(files[name])
    ensures !Accepts(sha, Print(sha, files, names), found)
  {
    AcceptsExactly(sha, files, names, found);
  }

  /** A file whose name ends in a space is printed so that the check cannot find it. */
  lemma TrailingSpaceRefused(sha: Data -> string, data: Data)
    requires HexHash(sha)
    ensures !Accepts(sha, Print(sha, map["a " := data], ["a "]), map["a " := data])
  {
    var files := map["a " := data];
    assert NamesOf(["a "], files);
    AcceptsExactly(sha, files, ["a "], files);
    assert "a " != CHECKSUMS by {
      assert |"a "| != |CHECKSUMS|;
    }
    assert TrimRight("a ") == "a" by {
      assert "a "[..1] == "a";
    }
    assert |"a"| != |"a "|;
  }
}
