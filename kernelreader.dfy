/** Include expansion, cache-directory creation and the binary kernel
    cache (src/kernelreader.cpp). */
module KernelReader {
  import opened Outcomes
  import opened StdString
  import opened OpenCl
  import opened FileSystem
  import opened Utils

  // ---------------------------------------------------------------------
  // Include expansion (`readKernel`)
  // ---------------------------------------------------------------------

  /** The text produced so far and the include list threaded through the
      recursion. */
  datatype Expansion = Expansion(text: string, visited: seq<string>)

  /** What one line of a kernel file contributes. */
  datatype LineKind =
    | Verbatim            // no "#include": copied, followed by a newline
    | Include(name: string) // an include of a ".cl" or ".h" file: expanded in place
    | Skipped             // any other include line: dropped
    | TooShort            // an include line shorter than 10 characters: `substr` throws

  /** `line.substr(10, line.length() - 11)`: the length is computed in
      `size_t`, so for a 10-character line it wraps to the maximum and the
      name is empty. */
  function IncludeName(line: string): (name: string)
    requires |line| >= 10
    ensures |line| >= 11 ==> name == line[10..|line| - 1]
    ensures |line| == 10 ==> name == ""
  {
    var count := if |line| >= 11 then |line| - 11 else SizeModulus - 1;
    Substr(line, 10, count)
  }

  function Classify(line: string): (k: LineKind)
    ensures k == Verbatim <==> !Occurs(line, "#include")
    ensures k == TooShort <==> Occurs(line, "#include") && |line| < 10
    ensures k.Include? ==> |line| >= 11 && k.name == line[10..|line| - 1]
    ensures k.Include? || k == Skipped ==> |line| >= 10
    ensures k.Include? <==> k != Verbatim && k != TooShort && (EndsWith(IncludeName(line), ".cl") || EndsWith(IncludeName(line), ".h"))
  {
    if !Contains(line, "#include") then Verbatim
    else if |line| < 10 then TooShort
    else
      var name := IncludeName(line);
      if EndsWith(name, ".cl") || EndsWith(name, ".h") then Include(name) else Skipped
  }

  /** `path.substr(0, path.find_last_of('/'))`: a path without '/' is its
      own directory. */
  function DirOf(path: string): string
  {
    var idx := FindLast(path, '/');
    if idx == -1 then path else path[..idx]
  }

  function Elements(s: seq<string>): set<string>
  {
    set x | x in s
  }

  /** The number of files not yet on the include list: the recursion's
      termination measure. */
  function Unvisited(files: map<string, seq<string>>, visited: seq<string>): nat
  {
    |files.Keys - Elements(visited)|
  }

  lemma SubsetCardinality(a: set<string>, b: set<string>)
    requires a <= b
    ensures |a| <= |b|
    decreases a
  {
    if a != {} {
      var x :| x in a;
      SubsetCardinality(a - {x}, b - {x});
    }
  }

  lemma UnvisitedShrinks(files: map<string, seq<string>>, visited: seq<string>, p: string)
    requires p in files && p !in visited
    ensures Unvisited(files, visited + [p]) < Unvisited(files, visited)
  {
    var before := files.Keys - Elements(visited);
    assert files.Keys - Elements(visited + [p]) == before - {p};
    assert p in before;
  }

  lemma UnvisitedMonotone(files: map<string, seq<string>>, v: seq<string>, w: seq<string>)
    requires v <= w
    ensures Unvisited(files, w) <= Unvisited(files, v)
  {
    SubsetCardinality(files.Keys - Elements(w), files.Keys - Elements(v));
  }

  predicate NoDup(s: seq<string>)
  {
    forall i, j :: 0 <= i < j < |s| ==> s[i] != s[j]
  }

  const OpenError := "Cannot open file "

  /** The fault of an include whose file cannot be opened. */
  predicate MissingFile(files: map<string, seq<string>>, f: Fault)
  {
    f.Exit? && OpenError <= f.message && f.message[|OpenError|..] !in files
  }

  /** `readKernel(path, incl)`. The file is opened before the include list
      is consulted; an unvisited path is pushed onto the list before any of
      its lines is read. The list only grows, never holds a path twice, and
      every path on it names an existing file. */
  function Expand(files: map<string, seq<string>>, path: string, visited: seq<string>): (r: Outcome<Expansion>)
    ensures r.Ok? ==> visited <= r.value.visited
    ensures r.Ok? && NoDup(visited) ==> NoDup(r.value.visited)
    ensures r.Ok? ==> forall i :: |visited| <= i < |r.value.visited| ==> r.value.visited[i] in files
    ensures Unixify(path) !in files <==> r == Fail(Exit(OpenError + Unixify(path)))
    ensures r.Fail? ==> r.fault == OutOfRange || MissingFile(files, r.fault)
    ensures r.Ok? && Unixify(path) !in visited ==>
      |r.value.visited| > |visited| && r.value.visited[|visited|] == Unixify(path)
    decreases Unvisited(files, visited), 0
  {
    var p := Unixify(path);
    if p !in files then Fail(Exit(OpenError + p))
    else if p in visited then Ok(Expansion("", visited))
    else
      UnvisitedShrinks(files, visited, p);
      ExpandLines(files, DirOf(p), files[p], 0, Expansion("", visited + [p]))
  }

  /** The line loop of `readKernel`, from line `i` on, with the output and
      the include list so far in `acc`. */
  function ExpandLines(files: map<string, seq<string>>, dir: string, lines: seq<string>, i: nat, acc: Expansion)
    : (r: Outcome<Expansion>)
    requires i <= |lines|
    ensures r.Ok? ==> acc.visited <= r.value.visited
    ensures r.Ok? && NoDup(acc.visited) ==> NoDup(r.value.visited)
    ensures r.Ok? ==> forall j :: |acc.visited| <= j < |r.value.visited| ==> r.value.visited[j] in files
    ensures r.Fail? ==> r.fault == OutOfRange || MissingFile(files, r.fault)
    decreases Unvisited(files, acc.visited), 1, |lines| - i
  {
    if i == |lines| then Ok(acc)
    else
      match Classify(lines[i])
      case Verbatim =>
        ExpandLines(files, dir, lines, i + 1, Expansion(acc.text + lines[i] + "\n", acc.visited))
      case Skipped =>
        ExpandLines(files, dir, lines, i + 1, acc)
      case TooShort =>
        Fail(OutOfRange)
      case Include(name) =>
        match Expand(files, dir + "/" + name, acc.visited)
        case Fail(f) => Fail(f)
        case Ok(sub) =>
          UnvisitedMonotone(files, acc.visited, sub.visited);
          ExpandLines(files, dir, lines, i + 1, Expansion(acc.text + sub.text + "\n", sub.visited))
  }

  /** `readKernel(path)`: the expansion from an empty include list. */
  function ExpandRoot(files: map<string, seq<string>>, path: string): Outcome<string>
  {
    match Expand(files, path, [])
    case Ok(e) => Ok(e.text)
    case Fail(f) => Fail(f)
  }

  /** The include list `incl` that the recursion shares. */
  class IncludeList {
    var paths: seq<string>

    constructor ()
      ensures paths == []
    {
      paths := [];
    }
  }

  // One step of the line loop for each kind of line.

  lemma StepVerbatim(files: map<string, seq<string>>, dir: string, lines: seq<string>, i: nat, acc: Expansion)
    requires i < |lines| && !Contains(lines[i], "#include")
    ensures ExpandLines(files, dir, lines, i, acc)
         == ExpandLines(files, dir, lines, i + 1, Expansion(acc.text + lines[i] + "\n", acc.visited))
  {
    assert Classify(lines[i]) == Verbatim;
  }

  lemma StepTooShort(files: map<string, seq<string>>, dir: string, lines: seq<string>, i: nat, acc: Expansion)
    requires i < |lines| && Contains(lines[i], "#include") && |lines[i]| < 10
    ensures ExpandLines(files, dir, lines, i, acc) == Fail(OutOfRange)
  {
    assert Classify(lines[i]) == TooShort;
  }

  lemma StepSkipped(files: map<string, seq<string>>, dir: string, lines: seq<string>, i: nat, acc: Expansion)
    requires i < |lines| && Contains(lines[i], "#include") && |lines[i]| >= 10
    requires !EndsWith(IncludeName(lines[i]), ".cl") && !EndsWith(IncludeName(lines[i]), ".h")
    ensures ExpandLines(files, dir, lines, i, acc) == ExpandLines(files, dir, lines, i + 1, acc)
  {
    assert Classify(lines[i]) == Skipped;
  }

  lemma StepInclude(files: map<string, seq<string>>, dir: string, lines: seq<string>, i: nat, acc: Expansion)
    requires i < |lines| && Contains(lines[i], "#include") && |lines[i]| >= 10
    requires EndsWith(IncludeName(lines[i]), ".cl") || EndsWith(IncludeName(lines[i]), ".h")
    ensures ExpandLines(files, dir, lines, i, acc)
         == match Expand(files, dir + "/" + IncludeName(lines[i]), acc.visited)
            case Fail(f) => Fail(f)
            case Ok(sub) => ExpandLines(files, dir, lines, i + 1, Expansion(acc.text + sub.text + "\n", sub.visited))
  {
    assert Classify(lines[i]) == Include(IncludeName(lines[i]));
  }

  /** An include whose expansion succeeds continues with its text and a
      newline on the list it left. */
  lemma StepIncludeOk(files: map<string, seq<string>>, dir: string, lines: seq<string>, i: nat, acc: Expansion,
                      sub: Expansion)
    requires i < |lines| && Contains(lines[i], "#include") && |lines[i]| >= 10
    requires EndsWith(IncludeName(lines[i]), ".cl") || EndsWith(IncludeName(lines[i]), ".h")
    requires Expand(files, dir + "/" + IncludeName(lines[i]), acc.visited) == Ok(sub)
    ensures ExpandLines(files, dir, lines, i, acc)
         == ExpandLines(files, dir, lines, i + 1, Expansion(acc.text + sub.text + "\n", sub.visited))
  {
    StepInclude(files, dir, lines, i, acc);
  }

  /** An include whose expansion fails ends the loop with that failure. */
  lemma StepIncludeFails(files: map<string, seq<string>>, dir: string, lines: seq<string>, i: nat, acc: Expansion,
                         f: Fault)
    requires i < |lines| && Contains(lines[i], "#include") && |lines[i]| >= 10
    requires EndsWith(IncludeName(lines[i]), ".cl") || EndsWith(IncludeName(lines[i]), ".h")
    requires Expand(files, dir + "/" + IncludeName(lines[i]), acc.visited) == Fail(f)
    ensures ExpandLines(files, dir, lines, i, acc) == Fail(f)
  {
    StepInclude(files, dir, lines, i, acc);
  }

  /** `readKernel(path, incl)`. */
  method ReadKernelWith(fs: FileStore, path: string, incl: IncludeList) returns (r: Outcome<string>)
    modifies incl
    ensures var e := Expand(fs.sources, path, old(incl.paths));
      match e
      case Ok(x) => r == Ok(x.text) && incl.paths == x.visited
      case Fail(f) => r == Fail(f)
    decreases Unvisited(fs.sources, incl.paths), 0
  {
    var p := UnixifyPath(path);
    if p !in fs.sources {
      return Fail(Exit(OpenError + p));
    }
    if p in incl.paths {
      return Ok("");
    }
    ghost var v0 := incl.paths;
    UnvisitedShrinks(fs.sources, v0, p);
    incl.paths := incl.paths + [p];

    var idx := FindLast(p, '/');
    var dir := if idx == -1 then p else p[..idx];
    var lines := fs.sources[p];
    assert dir == DirOf(p);
    assert Expand(fs.sources, path, v0) == ExpandLines(fs.sources, dir, lines, 0, Expansion("", v0 + [p]));
    var output := "";
    var i := 0;
    while i < |lines|
      invariant 0 <= i <= |lines|
      invariant v0 + [p] <= incl.paths
      invariant ExpandLines(fs.sources, dir, lines, i, Expansion(output, incl.paths))
             == ExpandLines(fs.sources, dir, lines, 0, Expansion("", v0 + [p]))
    {
      UnvisitedMonotone(fs.sources, v0 + [p], incl.paths);
      var next := ReadLine(fs, dir, lines, i, output, incl);
      if next.Fail? {
        assert Expand(fs.sources, path, v0) == Fail(next.fault);
        return Fail(next.fault);
      }
      output := next.value;
      i := i + 1;
    }
    assert Expand(fs.sources, path, v0) == Ok(Expansion(output, incl.paths));
    return Ok(output);
  }

  /** One pass of the line loop of `readKernel(path, incl)`, on line `i`
      with the output so far: the output extended by that line, or the
      failure the loop ends with. */
  method ReadLine(fs: FileStore, dir: string, lines: seq<string>, i: nat, output: string, incl: IncludeList)
    returns (r: Outcome<string>)
    requires i < |lines|
    modifies incl
    ensures r.Fail? ==> ExpandLines(fs.sources, dir, lines, i, Expansion(output, old(incl.paths))) == Fail(r.fault)
    ensures r.Ok? ==> old(incl.paths) <= incl.paths
    ensures r.Ok? ==>
              ExpandLines(fs.sources, dir, lines, i, Expansion(output, old(incl.paths)))
              == ExpandLines(fs.sources, dir, lines, i + 1, Expansion(r.value, incl.paths))
    decreases Unvisited(fs.sources, incl.paths), 1
  {
    var line := lines[i];
    if !Contains(line, "#include") {
      StepVerbatim(fs.sources, dir, lines, i, Expansion(output, incl.paths));
      return Ok(output + line + "\n");
    }
    if |line| < 10 {
      StepTooShort(fs.sources, dir, lines, i, Expansion(output, incl.paths));
      return Fail(OutOfRange);
    }
    var name := IncludeName(line);
    if EndsWith(name, ".cl") || EndsWith(name, ".h") {
      ghost var acc := Expansion(output, incl.paths);
      var sub := ReadKernelWith(fs, dir + "/" + name, incl);
      if sub.Fail? {
        StepIncludeFails(fs.sources, dir, lines, i, acc, sub.fault);
        return Fail(sub.fault);
      }
      StepIncludeOk(fs.sources, dir, lines, i, acc, Expansion(sub.value, incl.paths));
      return Ok(output + sub.value + "\n");
    }
    StepSkipped(fs.sources, dir, lines, i, Expansion(output, incl.paths));
    return Ok(output);
  }

  /** `readKernel(path)`: a fresh include list, so the result is the
      expansion from the empty list. */
  method ReadKernel(fs: FileStore, path: string) returns (r: Outcome<string>)
    ensures r == ExpandRoot(fs.sources, path)
  {
    var incl := new IncludeList();
    r := ReadKernelWith(fs, path, incl);
  }

  /** A path already on the include list contributes nothing and leaves the
      list as it was. */
  lemma ExpandVisited(files: map<string, seq<string>>, path: string, visited: seq<string>)
    requires Unixify(path) in files && Unixify(path) in visited
    ensures Expand(files, path, visited) == Ok(Expansion("", visited))
  {
  }

  ghost predicate NoIncludes(lines: seq<string>)
  {
    forall i :: 0 <= i < |lines| ==> !Occurs(lines[i], "#include")
  }

  /** Each line followed by a newline. */
  function Terminated(lines: seq<string>): string
  {
    if |lines| == 0 then "" else lines[0] + "\n" + Terminated(lines[1..])
  }

  lemma {:induction false} TerminatedIsText(lines: seq<string>)
    requires |lines| >= 1
    ensures Terminated(lines) == JoinLines(lines) + "\n"
  {
    if |lines| > 1 {
      TerminatedIsText(lines[1..]);
    }
  }

  /** From line `i` on, lines without includes are copied. */
  lemma {:induction false} PlainLinesFrom(files: map<string, seq<string>>, dir: string, lines: seq<string>, i: nat, acc: Expansion,
                       rest: seq<string>)
    requires i <= |lines| && lines[i..] == rest && NoIncludes(rest)
    ensures ExpandLines(files, dir, lines, i, acc) == Ok(Expansion(acc.text + Terminated(rest), acc.visited))
    decreases |lines| - i
  {
    if i < |lines| {
      assert lines[i] == rest[0];
      StepVerbatim(files, dir, lines, i, acc);
      assert lines[i + 1..] == rest[1..];
      PlainLinesFrom(files, dir, lines, i + 1, Expansion(acc.text + lines[i] + "\n", acc.visited), rest[1..]);
      assert acc.text + lines[i] + "\n" + Terminated(rest[1..]) == acc.text + Terminated(rest);
    } else {
      assert acc.text + Terminated(rest) == acc.text;
    }
  }

  /** A file without include lines expands to each of its lines followed by
      a newline: its text, plus one newline at the end. */
  lemma PlainFileExpansion(files: map<string, seq<string>>, path: string, visited: seq<string>)
    requires Unixify(path) in files && Unixify(path) !in visited
    requires NoIncludes(files[Unixify(path)])
    ensures Expand(files, path, visited)
         == Ok(Expansion(Terminated(files[Unixify(path)]), visited + [Unixify(path)]))
    ensures |files[Unixify(path)]| >= 1 ==>
      Expand(files, path, visited).value.text == JoinLines(files[Unixify(path)]) + "\n"
  {
    var p := Unixify(path);
    assert Expand(files, path, visited) == ExpandLines(files, DirOf(p), files[p], 0, Expansion("", visited + [p]));
    assert files[p][0..] == files[p];
    PlainLinesFrom(files, DirOf(p), files[p], 0, Expansion("", visited + [p]), files[p]);
    assert "" + Terminated(files[p]) == Terminated(files[p]);
    if |files[p]| >= 1 {
      TerminatedIsText(files[p]);
    }
  }

  lemma DirOfJoin(dir: string, name: string)
    requires '/' !in name
    ensures DirOf(dir + "/" + name) == dir
  {
    var p := dir + "/" + name;
    assert p[|dir|] == '/';
    assert forall j :: |dir| < j < |p| ==> p[j] == name[j - |dir| - 1];
    assert p[..|dir|] == dir;
  }

  /** `#include "name"` is an include of `name`, kept when the name ends in
      ".cl" or ".h" and dropped otherwise. */
  lemma QuotedInclude(name: string)
    ensures var line := "#include \"" + name + "\"";
      Contains(line, "#include") && |line| >= 10 && IncludeName(line) == name &&
      Classify(line) == if EndsWith(name, ".cl") || EndsWith(name, ".h") then Include(name) else Skipped
  {
    var line := "#include \"" + name + "\"";
    assert OccursAt(line, "#include", 0);
    assert line[10..|line| - 1] == name;
  }

  /** An include of a file already on the list contributes only the
      newline after it: this is what ends an include cycle. */
  lemma RevisitContributesNewline(files: map<string, seq<string>>, dir: string, lines: seq<string>, i: nat, acc: Expansion)
    requires i < |lines| && Classify(lines[i]).Include?
    requires var p := Unixify(dir + "/" + Classify(lines[i]).name); p in files && p in acc.visited
    ensures ExpandLines(files, dir, lines, i, acc)
         == ExpandLines(files, dir, lines, i + 1, Expansion(acc.text + "\n", acc.visited))
  {
    var name := Classify(lines[i]).name;
    ExpandVisited(files, dir + "/" + name, acc.visited);
    assert acc.text + "" + "\n" == acc.text + "\n";
  }

  /** A path without '/' is its own directory, so the includes of a root
      file named without a directory are looked up beneath it. */
  lemma DirOfWithoutSlash(path: string)
    requires '/' !in path
    ensures DirOf(path) == path
  {
  }

  /** The line `#include "name"`. */
  function IncludeLine(name: string): string
  {
    "#include \"" + name + "\""
  }

  lemma IncludeOfHeader(name: string)
    requires EndsWith(name, ".h") || EndsWith(name, ".cl")
    ensures Classify(IncludeLine(name)) == Include(name)
  {
    QuotedInclude(name);
  }

  /** Expanding an unvisited include-free file named by `dir + "/" + name`. */
  lemma ExpandPlainInclude(files: map<string, seq<string>>, dir: string, name: string, b: string, visited: seq<string>)
    requires Unixify(dir + "/" + name) == b && b in files && b !in visited && NoIncludes(files[b])
    ensures Expand(files, dir + "/" + name, visited) == Ok(Expansion(Terminated(files[b]), visited + [b]))
  {
    PlainFileExpansion(files, dir + "/" + name, visited);
  }

  /** A file whose two lines both include the same include-free file `b`:
      `b` is inlined once, and the second include adds only its newline. */
  lemma RepeatedIncludeInlinedOnce(files: map<string, seq<string>>, a: string, name: string, b: string)
    requires '\\' !in a && a in files && a != b
    requires EndsWith(name, ".h") || EndsWith(name, ".cl")
    requires Unixify(DirOf(a) + "/" + name) == b && b in files && NoIncludes(files[b])
    requires files[a] == [IncludeLine(name), IncludeLine(name)]
    ensures ExpandRoot(files, a) == Ok(Terminated(files[b]) + "\n\n")
  {
    var dir, lines := DirOf(a), files[a];
    UnixifyPlain(a);
    assert [] + [a] == [a] && [a] + [b] == [a, b];
    assert Expand(files, a, []) == ExpandLines(files, dir, lines, 0, Expansion("", [a]));
    IncludeOfHeader(name);
    ExpandPlainInclude(files, dir, name, b, [a]);
    var t := Terminated(files[b]);
    assert "" + t + "\n" == t + "\n";
    assert ExpandLines(files, dir, lines, 0, Expansion("", [a]))
        == ExpandLines(files, dir, lines, 1, Expansion(t + "\n", [a, b]));
    RevisitContributesNewline(files, dir, lines, 1, Expansion(t + "\n", [a, b]));
    assert t + "\n" + "\n" == t + "\n\n";
  }

  /** Inside `b`, whose first line includes `a`, already on the list. */
  lemma ExpandBackReference(files: map<string, seq<string>>, a: string, b: string, name: string, rest: seq<string>)
    requires a in files && b in files && a != b
    requires EndsWith(name, ".h") || EndsWith(name, ".cl")
    requires Unixify(DirOf(b) + "/" + name) == a
    requires files[b] == [IncludeLine(name)] + rest && NoIncludes(rest)
    ensures ExpandLines(files, DirOf(b), files[b], 0, Expansion("", [a, b]))
         == Ok(Expansion("\n" + Terminated(rest), [a, b]))
  {
    var lines := files[b];
    IncludeOfHeader(name);
    RevisitContributesNewline(files, DirOf(b), lines, 0, Expansion("", [a, b]));
    assert "" + "\n" == "\n";
    assert lines[1..] == rest;
    PlainLinesFrom(files, DirOf(b), lines, 1, Expansion("\n", [a, b]), rest);
  }

  /** Expanding `b` when its first line includes `a`, already on the list. */
  lemma ExpandIncluder(files: map<string, seq<string>>, a: string, b: string, dir: string, nameA: string, nameB: string,
                       restB: seq<string>)
    requires a in files && b in files && a != b
    requires EndsWith(nameA, ".h") || EndsWith(nameA, ".cl")
    requires Unixify(dir + "/" + nameB) == b && Unixify(DirOf(b) + "/" + nameA) == a
    requires files[b] == [IncludeLine(nameA)] + restB && NoIncludes(restB)
    ensures Expand(files, dir + "/" + nameB, [a]) == Ok(Expansion("\n" + Terminated(restB), [a, b]))
  {
    assert [a] + [b] == [a, b];
    assert Expand(files, dir + "/" + nameB, [a]) == ExpandLines(files, DirOf(b), files[b], 0, Expansion("", [a, b]));
    ExpandBackReference(files, a, b, nameA, restB);
  }

  /** Two files whose first lines include each other: expansion terminates,
      `b` is inlined once and the include of `a` inside it adds only a
      newline. */
  lemma IncludeCycleTerminates(files: map<string, seq<string>>, a: string, b: string, nameA: string, nameB: string,
                               restA: seq<string>, restB: seq<string>)
    requires '\\' !in a && a in files && b in files && a != b
    requires EndsWith(nameA, ".h") || EndsWith(nameA, ".cl")
    requires EndsWith(nameB, ".h") || EndsWith(nameB, ".cl")
    requires Unixify(DirOf(a) + "/" + nameB) == b && Unixify(DirOf(b) + "/" + nameA) == a
    requires files[a] == [IncludeLine(nameB)] + restA && NoIncludes(restA)
    requires files[b] == [IncludeLine(nameA)] + restB && NoIncludes(restB)
    ensures ExpandRoot(files, a) == Ok("\n" + Terminated(restB) + "\n" + Terminated(restA))
  {
    var dir, lines := DirOf(a), files[a];
    UnixifyPlain(a);
    assert [] + [a] == [a];
    assert Expand(files, a, []) == ExpandLines(files, dir, lines, 0, Expansion("", [a]));
    IncludeOfHeader(nameB);
    ExpandIncluder(files, a, b, dir, nameA, nameB, restB);
    var sub := "\n" + Terminated(restB);
    assert "" + sub + "\n" == sub + "\n";
    assert ExpandLines(files, dir, lines, 0, Expansion("", [a]))
        == ExpandLines(files, dir, lines, 1, Expansion(sub + "\n", [a, b]));
    assert lines[1..] == restA;
    PlainLinesFrom(files, dir, lines, 1, Expansion(sub + "\n", [a, b]), restA);
  }

  /** `d/a.cl` including `b.h` twice, where `d/b.h` is the single line "y":
      the header is inlined once and the second include is an empty line. */
  lemma RepeatedIncludeExample(files: map<string, seq<string>>, root: string)
    requires root == "d/a.cl"
    requires files == map[root := [IncludeLine("b.h"), IncludeLine("b.h")], "d/b.h" := ["y"]]
    ensures ExpandRoot(files, root) == Ok("y\n\n\n")
  {
    assert root == "d" + "/" + "a.cl";
    DirOfJoin("d", "a.cl");
    var b := "d" + "/" + "b.h";
    assert b == "d/b.h";
    UnixifyPlain(b);
    UnixifyPlain(root);
    assert EndsWith("b.h", ".h");
    assert root != b;
    assert !Occurs("y", "#include");
    assert NoIncludes(files[b]);
    RepeatedIncludeInlinedOnce(files, root, "b.h", b);
    assert Terminated(["y"]) + "\n\n" == "y\n\n\n";
  }

  /** `d/a.cl` and `d/b.h` including each other from their first lines,
      followed by "A" and "B": expansion ends, giving an empty line where
      `b.h` includes `a.cl` back, then "B", then the empty line closing the
      include of `b.h`, then "A". */
  lemma IncludeCycleExample(files: map<string, seq<string>>, root: string)
    requires root == "d/a.cl"
    requires files == map[root := [IncludeLine("b.h"), "A"], "d/b.h" := [IncludeLine("a.cl"), "B"]]
    ensures ExpandRoot(files, root) == Ok("\nB\n\nA\n")
  {
    assert root == "d" + "/" + "a.cl";
    var b := "d" + "/" + "b.h";
    assert b == "d/b.h";
    DirOfJoin("d", "a.cl");
    DirOfJoin("d", "b.h");
    UnixifyPlain(b);
    UnixifyPlain(root);
    assert EndsWith("b.h", ".h") && EndsWith("a.cl", ".cl");
    assert root != b;
    assert !Occurs("A", "#include") && !Occurs("B", "#include");
    assert NoIncludes(["A"]) && NoIncludes(["B"]);
    assert files[root] == [IncludeLine("b.h")] + ["A"];
    assert files[b] == [IncludeLine("a.cl")] + ["B"];
    IncludeCycleTerminates(files, root, b, "a.cl", "b.h", ["A"], ["B"]);
    assert "\n" + Terminated(["B"]) + "\n" + Terminated(["A"]) == "\nB\n\nA\n";
  }

  // ---------------------------------------------------------------------
  // Directory creation (`createPath`, `createDirectory`)
  // ---------------------------------------------------------------------

  /** `createPath(inpath)`, with the `ENOENT` branch corrected for a path
      without '/': there it fails instead of retrying the same path. It
      changes only the directories, creates nothing but prefixes of the
      normalised path, succeeds only when that path then exists, and
      fails only when it does not. */
  function CreatePathSpec(v: FsView, inpath: string): (res: (bool, FsView))
    ensures res.1 == v.(dirs := res.1.dirs) && v.dirs <= res.1.dirs
    ensures forall d :: d in res.1.dirs && d !in v.dirs ==> d <= Unixify(inpath)
    ensures res.0 <==> Occupied(res.1, Unixify(inpath))
    ensures Occupied(v, Unixify(inpath)) ==> res == (true, v)
    decreases |inpath|
  {
    var path := Unixify(inpath);
    match MkdirResultOf(v, path)
    case Made => (true, v.(dirs := v.dirs + {path}))
    case AlreadyExists => (true, v)
    case Refused => (false, v)
    case NoEntry =>
      var k := FindLast(path, '/');
      if k == -1 then (false, v)
      else
        UnixifyPlain(path[..k]);
        var (ok, w) := CreatePathSpec(v, path[..k]);
        assert !Occupied(w, path) by {
          assert forall d :: d in w.dirs && d !in v.dirs ==> |d| <= k;
        }
        if ok && MkdirResultOf(w, path) == Made then (true, w.(dirs := w.dirs + {path}))
        else (false, w)
  }

  /** `createPath(inpath)` as written, allowed at most `fuel` nested calls;
      `None` when the recursion goes deeper. For a path without '/',
      `substr(0, npos)` is the whole path, so on `ENOENT` the call repeats
      itself unchanged. */
  function CreatePathAsWritten(v: FsView, inpath: string, fuel: nat): Option<(bool, FsView)>
    decreases fuel
  {
    if fuel == 0 then None
    else
      var path := Unixify(inpath);
      match MkdirResultOf(v, path)
      case Made => Some((true, v.(dirs := v.dirs + {path})))
      case AlreadyExists => Some((true, v))
      case Refused => Some((false, v))
      case NoEntry =>
        var k := FindLast(path, '/');
        var parent := if k == -1 then path else path[..k];
        match CreatePathAsWritten(v, parent, fuel - 1)
        case None => None
        case Some(inner) =>
          if inner.0 && MkdirResultOf(inner.1, path) == Made then Some((true, inner.1.(dirs := inner.1.dirs + {path})))
          else Some((false, inner.1))
  }

  /** `createPath("")`, reached through `setCacheDir("")`: `mkdir("")`
      fails with `ENOENT` and the parent of "" is "" again, so no amount of
      fuel is enough. */
  lemma {:induction false} CreatePathEmptyDiverges(v: FsView, fuel: nat)
    requires !Occupied(v, "")
    ensures CreatePathAsWritten(v, "", fuel) == None
  {
    if fuel > 0 {
      assert Unixify("") == "";
      assert MkdirResultOf(v, "") == NoEntry;
      CreatePathEmptyDiverges(v, fuel - 1);
    }
  }

  /** The corrected `createPath` fails on "" and changes nothing. */
  lemma CreatePathEmptyFails(v: FsView)
    requires !Occupied(v, "")
    ensures CreatePathSpec(v, "") == (false, v)
  {
    assert Unixify("") == "";
  }

  /** Wherever the code as written returns, it agrees with the corrected
      definition. */
  lemma {:induction false} CreatePathAsWrittenAgrees(v: FsView, inpath: string, fuel: nat)
    requires CreatePathAsWritten(v, inpath, fuel).Some?
    ensures CreatePathAsWritten(v, inpath, fuel) == Some(CreatePathSpec(v, inpath))
    decreases fuel
  {
    var path := Unixify(inpath);
    UnixifyIdempotent(inpath);
    if MkdirResultOf(v, path) == NoEntry {
      var k := FindLast(path, '/');
      var parent := if k == -1 then path else path[..k];
      CreatePathAsWrittenAgrees(v, parent, fuel - 1);
      if k != -1 {
        UnixifyPlain(parent);
      }
    }
  }

  /** Creating a path a second time changes nothing and gives the same
      answer. */
  lemma {:induction false} CreatePathIdempotent(v: FsView, inpath: string)
    ensures CreatePathSpec(CreatePathSpec(v, inpath).1, inpath) == CreatePathSpec(v, inpath)
    decreases |inpath|
  {
    var path := Unixify(inpath);
    if MkdirResultOf(v, path) == NoEntry {
      var k := FindLast(path, '/');
      if k != -1 {
        UnixifyPlain(path[..k]);
        CreatePathIdempotent(v, path[..k]);
      }
    }
  }

  /** Creating a path does not depend on a file whose name is longer than
      the path, and leaves it alone. */
  lemma {:induction false} CreatePathIgnoresLongerFile(v: FsView, inpath: string, q: string, bytes: seq<byte>)
    requires |inpath| < |q|
    ensures var u := v.(binaries := v.binaries[q := bytes]);
      CreatePathSpec(u, inpath) == (CreatePathSpec(v, inpath).0, CreatePathSpec(v, inpath).1.(binaries := u.binaries))
    decreases |inpath|
  {
    var u := v.(binaries := v.binaries[q := bytes]);
    var path := Unixify(inpath);
    assert path != q;
    assert MkdirResultOf(u, path) == MkdirResultOf(v, path);
    if MkdirResultOf(v, path) == NoEntry {
      var k := FindLast(path, '/');
      if k != -1 {
        UnixifyPlain(path[..k]);
        CreatePathIgnoresLongerFile(v, path[..k], q, bytes);
        var w := CreatePathSpec(v, path[..k]).1;
        assert MkdirResultOf(w.(binaries := u.binaries), path) == MkdirResultOf(w, path);
      }
    }
  }

  /** `createPath(inpath)`, with the correction of `CreatePathSpec`. */
  method CreatePath(fs: FileStore, inpath: string) returns (ok: bool)
    modifies fs`dirs
    ensures (ok, fs.View()) == CreatePathSpec(old(fs.View()), inpath)
    decreases |inpath|
  {
    var path := UnixifyPath(inpath);
    var e := fs.Mkdir(path);
    match e
    case Made => return true;
    case AlreadyExists => return true;
    case Refused => return false;
    case NoEntry =>
      var k := FindLast(path, '/');
      if k == -1 {
        // The code as written retries `path` itself here and never returns.
        return false;
      }
      UnixifyPlain(path[..k]);
      var parentOk := CreatePath(fs, path[..k]);
      if parentOk {
        var again := fs.Mkdir(path);
        return again == Made;
      }
      return false;
  }

  /** `createDirectory(dir)`: a failure is only reported on the console. */
  method CreateDirectory(fs: FileStore, dir: string)
    modifies fs`dirs
    ensures fs.View() == CreatePathSpec(old(fs.View()), dir).1
  {
    var ok := CreatePath(fs, dir);
  }

  // ---------------------------------------------------------------------
  // Programs from files and the binary cache
  // ---------------------------------------------------------------------

  /** `verify(msg, err)`: a non-zero status prints "ERROR: msg" and exits. */
  function Verify(msg: string, err: int): (r: Outcome<()>)
    ensures r == Ok(()) <==> err == 0
    ensures r != Ok(()) ==> r == Fail(Exit("ERROR: " + msg))
  {
    if err != 0 then Fail(Exit("ERROR: " + msg)) else Ok(())
  }

  /** `kernelFromSource(filename, ...)`: the raw text of the file, without
      include expansion or path normalisation. */
  function KernelFromSource(v: FsView, filename: string): (r: Outcome<Program>)
    ensures filename in v.sources <==> r.Ok?
    ensures r.Ok? ==> r.value == FromSource(JoinLines(v.sources[filename]))
    ensures r.Fail? ==> r.fault == Exit("Could not open kernel file '" + filename + "'")
  {
    if filename !in v.sources then Fail(Exit("Could not open kernel file '" + filename + "'"))
    else Ok(FromSource(JoinLines(v.sources[filename])))
  }

  /** The status of a binary load: the bitwise OR of the construction
      status and every per-device status. */
  function CombinedStatus(err: int32, status: seq<int32>): (r: int32)
    ensures r == 0 <==> err == 0 && forall i :: 0 <= i < |status| ==> status[i] == 0
    decreases |status|
  {
    if |status| == 0 then err
    else
      var r := CombinedStatus(BitOr(err, status[0]), status[1..]);
      assert forall i :: 1 <= i < |status| ==> status[i] == status[1..][i - 1];
      r
  }

  /** `for (cl_int i : status) err |= i;` */
  method OrStatuses(err: int32, status: seq<int32>) returns (r: int32)
    ensures r == CombinedStatus(err, status)
  {
    r := err;
    for i := 0 to |status|
      invariant CombinedStatus(r, status[i..]) == CombinedStatus(err, status)
    {
      assert status[i..][0] == status[i] && status[i..][1..] == status[i + 1..];
      r := BitOr(r, status[i]);
    }
    assert status[|status|..] == [];
  }

  /** `kernelFromBinary(filename, ...)`: the program loaded from the file's
      bytes, and the combined load status. */
  method KernelFromBinary(fs: FileStore, driver: Driver, filename: string, device: Device)
    returns (r: Outcome<(Program, int32)>)
    ensures filename in fs.binaries <==> r.Ok?
    ensures r.Fail? ==> r.fault == Exit("Could not open kernel binary '" + filename + "'")
    ensures r.Ok? ==>
      var loaded := driver.loadBinary(fs.binaries[filename], device);
      r.value.0 == FromBinary(fs.binaries[filename]) &&
      r.value.1 == CombinedStatus(loaded.err, loaded.status) &&
      (r.value.1 == 0 <==> loaded.err == 0 && forall i :: 0 <= i < |loaded.status| ==> loaded.status[i] == 0)
  {
    if filename !in fs.binaries {
      return Fail(Exit("Could not open kernel binary '" + filename + "'"));
    }
    var binary := fs.binaries[filename];
    var loaded := driver.loadBinary(binary, device);
    var err := OrStatuses(loaded.err, loaded.status);
    return Ok((FromBinary(binary), err));
  }

  /** What the cache key hashes: the expanded source, then the build options,
      the platform name and the device name, with no separators. */
  function CacheKey(expanded: string, buildOpts: string, platformName: string, deviceName: string): string
  {
    expanded + buildOpts + platformName + deviceName
  }

  /** Keys are plain concatenations, so different option and platform
      strings can meet in the same key. */
  lemma CacheKeyConcatenation()
    ensures CacheKey("k", "-DA", "P", "D") == CacheKey("k", "-D", "AP", "D")
  {
  }

  /** `<cacheDir>/<fileName>.<hash in decimal>.bin`. */
  function CacheFileName(cacheDir: string, fileName: string, hash: uint64): (name: string)
    ensures |name| > |cacheDir| + |fileName| + 6 && name[..|cacheDir|] == cacheDir && name[|cacheDir|] == '/'
    ensures EndsWith(name, ".bin")
  {
    var name := cacheDir + "/" + fileName + "." + Decimal(hash as nat) + ".bin";
    EndsWithConcat(cacheDir + "/" + fileName + "." + Decimal(hash as nat), ".bin");
    assert name[..|cacheDir|] == cacheDir;
    name
  }

  /** Between the directory and ".bin" the cache file name holds the file
      name, a dot and the decimal digits of the hash; for a file name
      without '/' the file lies directly in the cache directory. */
  lemma CacheFileNameLayout(cacheDir: string, fileName: string, hash: uint64)
    ensures var name := CacheFileName(cacheDir, fileName, hash);
      name[|cacheDir| + 1..|cacheDir| + 1 + |fileName|] == fileName && name[|cacheDir| + 1 + |fileName|] == '.' &&
      IsDigits(name[|cacheDir| + |fileName| + 2..|name| - 4]) &&
      DecimalValue(name[|cacheDir| + |fileName| + 2..|name| - 4]) == hash as nat &&
      ('/' !in fileName ==> ParentOf(name) == cacheDir)
  {
    DecimalRoundTrip(hash as nat);
    CacheFileNameParts(cacheDir, fileName, Decimal(hash as nat));
  }

  lemma CacheFileNameParts(cacheDir: string, fileName: string, digits: string)
    requires IsDigits(digits)
    ensures var name := cacheDir + "/" + fileName + "." + digits + ".bin";
      name[..|cacheDir|] == cacheDir &&
      name[|cacheDir| + 1..|cacheDir| + 1 + |fileName|] == fileName &&
      name[|cacheDir| + |fileName| + 2..|name| - 4] == digits &&
      ('/' !in fileName ==> ParentOf(name) == cacheDir)
  {
    var name := cacheDir + "/" + fileName + "." + digits + ".bin";
    var start := |cacheDir| + |fileName| + 2;
    assert name[..|cacheDir|] == cacheDir;
    assert name[|cacheDir| + 1..|cacheDir| + 1 + |fileName|] == fileName;
    assert name[start..|name| - 4] == digits;
    if '/' !in fileName {
      forall j | |cacheDir| < j < |name|
        ensures name[j] != '/'
      {
        if j <= |cacheDir| + |fileName| {
          assert name[j] == fileName[j - |cacheDir| - 1];
        } else if start <= j < |name| - 4 {
          assert name[j] == digits[j - start];
        }
      }
      assert name[|cacheDir|] == '/';
      assert FindLast(name, '/') == |cacheDir|;
    }
  }

  /** Within one directory and one file name, distinct hashes give distinct
      cache files. */
  lemma CacheFileNameInjective(cacheDir: string, fileName: string, h1: uint64, h2: uint64)
    ensures CacheFileName(cacheDir, fileName, h1) == CacheFileName(cacheDir, fileName, h2) <==> h1 == h2
  {
    var prefix := cacheDir + "/" + fileName + ".";
    var d1, d2 := Decimal(h1 as nat), Decimal(h2 as nat);
    assert CacheFileName(cacheDir, fileName, h1) == prefix + d1 + ".bin";
    assert CacheFileName(cacheDir, fileName, h2) == prefix + d2 + ".bin";
    if prefix + d1 + ".bin" == prefix + d2 + ".bin" {
      assert |d1| == |d2|;
      assert d1 == (prefix + d1 + ".bin")[|prefix|..|prefix| + |d1|];
      assert d2 == (prefix + d2 + ".bin")[|prefix|..|prefix| + |d2|];
      DecimalInjective(h1 as nat, h2 as nat);
    }
  }

  /** The cache file of a request. */
  function BinaryPathFor(host: Host, path: string, expanded: string, buildOpts: string, cacheDir: string,
                         platform: Platform, device: Device): string
  {
    CacheFileName(cacheDir, GetFileName(path), host.hash(CacheKey(expanded, buildOpts, platform.name, device.name)))
  }

  /** A cache hit: the stored bytes are loaded, and the program is still
      built with the options. */
  function LoadCached(driver: Driver, bytes: seq<byte>, buildOpts: string, device: Device): (r: Outcome<Program>)
    ensures r.Ok? <==> Verify("Failed to create program from binary", CombinedStatus(driver.loadBinary(bytes, device).err, driver.loadBinary(bytes, device).status) as int).Ok?
                       && driver.build(FromBinary(bytes), device, buildOpts) == CL_SUCCESS
    ensures r.Ok? ==> r.value == FromBinary(bytes)
  {
    var loaded := driver.loadBinary(bytes, device);
    match Verify("Failed to create program from binary", CombinedStatus(loaded.err, loaded.status) as int)
    case Fail(f) => Fail(f)
    case Ok(_) =>
      match Verify("Failed to build program loaded from binary", driver.build(FromBinary(bytes), device, buildOpts) as int)
      case Fail(f) => Fail(f)
      case Ok(_) => Ok(FromBinary(bytes))
  }

  /** A cache miss: the expanded source is compiled, exactly one binary must
      come back, and it is written to the cache file. */
  function CompileAndStore(w: FsView, driver: Driver, expanded: string, buildOpts: string, device: Device, binaryPath: string)
    : (res: (Outcome<Program>, FsView))
    ensures res.1.sources == w.sources && res.1.readOnly == w.readOnly && res.1.dirs == w.dirs
    ensures res.1.binaries.Keys <= w.binaries.Keys + {binaryPath}
    ensures res.0.Ok? ==> res.0.value == FromSource(expanded) && binaryPath in res.1.binaries
  {
    var program := FromSource(expanded);
    match Verify("Kernel compilation failed", driver.build(program, device, buildOpts) as int)
    case Fail(f) => (Fail(f), w)
    case Ok(_) =>
      var bins := driver.binaries(program, device, buildOpts);
      match Verify("Incorrect number of kernel binaries generated!", if |bins| != 1 then 1 else 0)
      case Fail(f) => (Fail(f), w)
      case Ok(_) =>
        if !CanCreateFile(w, binaryPath) then (Fail(Exit("Failed to open kernel binary output file")), w)
        else (Ok(program), w.(binaries := w.binaries[binaryPath := bins[0]]))
  }

  /** `kernelFromFile(path, buildOpts, cacheDir, platform, context, device,
      err)`: the program, and the file system afterwards. */
  function KernelFromFileSpec(v: FsView, host: Host, driver: Driver, path: string, buildOpts: string, cacheDir: string,
                              platform: Platform, device: Device): (res: (Outcome<Program>, FsView))
    ensures res.1.sources == v.sources && res.1.readOnly == v.readOnly && v.dirs <= res.1.dirs
  {
    match ExpandRoot(v.sources, path)
    case Fail(f) => (Fail(f), v)
    case Ok(expanded) =>
      var w := CreatePathSpec(v, cacheDir).1;
      var binaryPath := BinaryPathFor(host, path, expanded, buildOpts, cacheDir, platform, device);
      if binaryPath in w.binaries then (LoadCached(driver, w.binaries[binaryPath], buildOpts, device), w)
      else CompileAndStore(w, driver, expanded, buildOpts, device, binaryPath)
  }

  /** On a hit the stored bytes are what is loaded and no file is written:
      the only change is the cache directory. */
  lemma CacheHit(v: FsView, host: Host, driver: Driver, path: string, buildOpts: string, cacheDir: string,
                 platform: Platform, device: Device)
    requires ExpandRoot(v.sources, path).Ok?
    requires BinaryPathFor(host, path, ExpandRoot(v.sources, path).value, buildOpts, cacheDir, platform, device) in v.binaries
    ensures var bp := BinaryPathFor(host, path, ExpandRoot(v.sources, path).value, buildOpts, cacheDir, platform, device);
      var res := KernelFromFileSpec(v, host, driver, path, buildOpts, cacheDir, platform, device);
      res.1 == CreatePathSpec(v, cacheDir).1 && res.1.binaries == v.binaries &&
      res.0 == LoadCached(driver, v.binaries[bp], buildOpts, device) &&
      (res.0.Ok? ==> res.0.value == FromBinary(v.binaries[bp]))
  {
  }

  /** On a miss the expanded source is compiled; on success exactly one
      file is added, at the cache path, holding the single binary. */
  lemma CacheMiss(v: FsView, host: Host, driver: Driver, path: string, buildOpts: string, cacheDir: string,
                  platform: Platform, device: Device)
    requires ExpandRoot(v.sources, path).Ok?
    requires BinaryPathFor(host, path, ExpandRoot(v.sources, path).value, buildOpts, cacheDir, platform, device) !in v.binaries
    ensures var e := ExpandRoot(v.sources, path).value;
      var bp := BinaryPathFor(host, path, e, buildOpts, cacheDir, platform, device);
      var w := CreatePathSpec(v, cacheDir).1;
      var bins := driver.binaries(FromSource(e), device, buildOpts);
      var res := KernelFromFileSpec(v, host, driver, path, buildOpts, cacheDir, platform, device);
      (res.0.Ok? <==> driver.build(FromSource(e), device, buildOpts) == CL_SUCCESS && |bins| == 1 && CanCreateFile(w, bp)) &&
      (res.0.Ok? ==> res.0.value == FromSource(e) && res.1 == w.(binaries := v.binaries[bp := bins[0]])) &&
      (res.0.Fail? ==> res.1 == w)
  {
  }

  /** A missing or malformed source file fails before anything is
      created. */
  lemma ExpansionFailureChangesNothing(v: FsView, host: Host, driver: Driver, path: string, buildOpts: string,
                                       cacheDir: string, platform: Platform, device: Device)
    requires ExpandRoot(v.sources, path).Fail?
    ensures KernelFromFileSpec(v, host, driver, path, buildOpts, cacheDir, platform, device)
         == (Fail(ExpandRoot(v.sources, path).fault), v)
  {
  }

  /** After a successful miss, the same request hits: it loads exactly the
      binary just stored and changes nothing. */
  lemma CacheRoundTrip(v: FsView, host: Host, driver: Driver, path: string, buildOpts: string, cacheDir: string,
                       platform: Platform, device: Device)
    requires ExpandRoot(v.sources, path).Ok?
    requires BinaryPathFor(host, path, ExpandRoot(v.sources, path).value, buildOpts, cacheDir, platform, device) !in v.binaries
    requires KernelFromFileSpec(v, host, driver, path, buildOpts, cacheDir, platform, device).0.Ok?
    ensures var e := ExpandRoot(v.sources, path).value;
      var stored := driver.binaries(FromSource(e), device, buildOpts)[0];
      var after := KernelFromFileSpec(v, host, driver, path, buildOpts, cacheDir, platform, device).1;
      KernelFromFileSpec(after, host, driver, path, buildOpts, cacheDir, platform, device)
        == (LoadCached(driver, stored, buildOpts, device), after)
  {
    var e := ExpandRoot(v.sources, path).value;
    var bp := BinaryPathFor(host, path, e, buildOpts, cacheDir, platform, device);
    var w := CreatePathSpec(v, cacheDir).1;
    var bins := driver.binaries(FromSource(e), device, buildOpts);
    CacheMiss(v, host, driver, path, buildOpts, cacheDir, platform, device);
    var after := w.(binaries := w.binaries[bp := bins[0]]);
    assert after == KernelFromFileSpec(v, host, driver, path, buildOpts, cacheDir, platform, device).1;
    CreatePathIdempotent(v, cacheDir);
    CreatePathIgnoresLongerFile(w, cacheDir, bp, bins[0]);
    assert CreatePathSpec(after, cacheDir).1 == after;
    assert bp in after.binaries && after.binaries[bp] == bins[0];
  }

  /** `kernelFromFile`, step by step: read and expand, derive the key,
      create the cache directory, hash, probe the cache file, then load it or
      compile and write it. The source is read twice, once for the key and
      once for compiling on a miss, as the code does. */
  method KernelFromFile(fs: FileStore, host: Host, driver: Driver, path: string, buildOpts: string, cacheDir: string,
                        platform: Platform, device: Device) returns (r: Outcome<Program>)
    modifies fs`dirs, fs`binaries
    ensures (r, fs.View()) == KernelFromFileSpec(old(fs.View()), host, driver, path, buildOpts, cacheDir, platform, device)
  {
    var fileName := GetFileName(path);
    var kernelSource := ReadKernel(fs, path);
    if kernelSource.Fail? {
      return Fail(kernelSource.fault);
    }
    var key := kernelSource.value + buildOpts + platform.name + device.name;
    CreateDirectory(fs, cacheDir);
    var hash := host.hash(key);
    var binaryPath := cacheDir + "/" + fileName + "." + Decimal(hash as nat) + ".bin";
    assert binaryPath == BinaryPathFor(host, path, kernelSource.value, buildOpts, cacheDir, platform, device);

    if binaryPath in fs.binaries {
      var binary := fs.binaries[binaryPath];
      var loaded := driver.loadBinary(binary, device);
      var err := OrStatuses(loaded.err, loaded.status);
      var ok := Verify("Failed to create program from binary", err as int);
      if ok.Fail? {
        return Fail(ok.fault);
      }
      var program := FromBinary(binary);
      var built := driver.build(program, device, buildOpts);
      ok := Verify("Failed to build program loaded from binary", built as int);
      if ok.Fail? {
        return Fail(ok.fault);
      }
      return Ok(program);
    } else {
      var expandedSrc := ReadKernel(fs, path);
      var program := FromSource(expandedSrc.value);
      var err := driver.build(program, device, buildOpts);
      var ok := Verify("Kernel compilation failed", err as int);
      if ok.Fail? {
        return Fail(ok.fault);
      }
      var bins := driver.binaries(program, device, buildOpts);
      ok := Verify("Incorrect number of kernel binaries generated!", if |bins| != 1 then 1 else 0);
      if ok.Fail? {
        return Fail(ok.fault);
      }
      var written := fs.WriteBinary(binaryPath, bins[0]);
      if !written {
        return Fail(Exit("Failed to open kernel binary output file"));
      }
      return Ok(program);
    }
  }
}
