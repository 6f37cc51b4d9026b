/** The file system as the library uses it: text files read line by line,
    binary cache files, directories, and `mkdir`. Paths are compared as
    plain strings with no normalisation, so "a/./b", "a//b" and "a/b" are
    different names; "." is the working directory and "" stands for the
    root when it is the parent of an absolute path such as "/x". */
module FileSystem {
  import opened StdString
  import opened OpenCl

  datatype FsView = FsView(
    sources: map<string, seq<string>>,
    binaries: map<string, seq<byte>>,
    dirs: set<string>,
    readOnly: set<string>)

  /** The directory that holds `p`: the text before its last '/', or the
      working directory when `p` has none. */
  function ParentOf(p: string): (d: string)
    ensures FindLast(p, '/') == -1 ==> d == "."
    ensures FindLast(p, '/') >= 0 ==> |d| < |p| && d == p[..FindLast(p, '/')]
  {
    var k := FindLast(p, '/');
    if k == -1 then "." else p[..k]
  }

  predicate IsDirectory(v: FsView, d: string)
  {
    d == "" || d == "/" || d == "." || d in v.dirs
  }

  /** Something (a directory or a file) already has the name `p`. */
  predicate Occupied(v: FsView, p: string)
  {
    p == "/" || p == "." || p in v.dirs || p in v.sources || p in v.binaries
  }

  /** What `mkdir(p, 0755)` does, by its `errno`. */
  datatype MkdirResult = Made | AlreadyExists | NoEntry | Refused

  function MkdirResultOf(v: FsView, p: string): (e: MkdirResult)
    ensures e == AlreadyExists <==> Occupied(v, p)
    ensures e == Made ==> p != "" && IsDirectory(v, ParentOf(p))
    ensures p == "" && !Occupied(v, p) ==> e == NoEntry
  {
    if Occupied(v, p) then AlreadyExists
    else if p == "" || !IsDirectory(v, ParentOf(p)) then NoEntry
    else if ParentOf(p) in v.readOnly then Refused
    else Made
  }

  /** An `std::ofstream` opened on `p` for writing succeeds. */
  predicate CanCreateFile(v: FsView, p: string)
  {
    !IsDirectory(v, p) && IsDirectory(v, ParentOf(p)) && ParentOf(p) !in v.readOnly
  }

  /** The lines a `getline` loop yields from a text: the pieces between
      newlines, so a text ending in a newline yields a last empty line. */
  function SplitLines(t: string): (lines: seq<string>)
    ensures |lines| >= 1
    decreases |t|
  {
    var k := Find(t, '\n', 0);
    if k == -1 then [t] else [t[..k]] + SplitLines(t[k + 1..])
  }

  /** No line that `getline` yields contains a newline. */
  lemma {:induction false} SplitLinesHaveNoNewline(t: string)
    ensures forall i :: 0 <= i < |SplitLines(t)| ==> '\n' !in SplitLines(t)[i]
    decreases |t|
  {
    var k := Find(t, '\n', 0);
    var lines := SplitLines(t);
    if k == -1 {
      assert lines == [t];
    } else {
      var rest := SplitLines(t[k + 1..]);
      SplitLinesHaveNoNewline(t[k + 1..]);
      assert lines == [t[..k]] + rest;
      assert '\n' !in t[..k];
      forall i | 0 <= i < |lines|
        ensures '\n' !in lines[i]
      {
        if i > 0 {
          assert lines[i] == rest[i - 1];
        }
      }
    }
  }

  /** The text of a file from its lines: the lines separated by newlines. */
  function JoinLines(lines: seq<string>): string
  {
    if |lines| == 0 then ""
    else if |lines| == 1 then lines[0]
    else lines[0] + "\n" + JoinLines(lines[1..])
  }

  lemma {:induction false} JoinSplit(t: string)
    ensures JoinLines(SplitLines(t)) == t
    decreases |t|
  {
    var k := Find(t, '\n', 0);
    if k != -1 {
      var rest := SplitLines(t[k + 1..]);
      var lines := [t[..k]] + rest;
      assert SplitLines(t) == lines;
      assert lines[0] == t[..k] && lines[1..] == rest;
      assert JoinLines(lines) == t[..k] + "\n" + JoinLines(rest);
      JoinSplit(t[k + 1..]);
      assert t == t[..k] + "\n" + t[k + 1..];
    }
  }

  lemma {:induction false} SplitJoin(lines: seq<string>)
    requires |lines| >= 1
    requires forall i :: 0 <= i < |lines| ==> '\n' !in lines[i]
    ensures SplitLines(JoinLines(lines)) == lines
  {
    if |lines| > 1 {
      var t := JoinLines(lines);
      assert t == lines[0] + "\n" + JoinLines(lines[1..]);
      assert t[|lines[0]|] == '\n';
      assert forall j :: 0 <= j < |lines[0]| ==> t[j] == lines[0][j];
      assert Find(t, '\n', 0) == |lines[0]|;
      assert t[..|lines[0]|] == lines[0];
      assert t[|lines[0]| + 1..] == JoinLines(lines[1..]);
      SplitJoin(lines[1..]);
    }
  }

  /** The files, directories and permissions of the machine. */
  class FileStore {
    var sources: map<string, seq<string>>
    var binaries: map<string, seq<byte>>
    var dirs: set<string>
    var readOnly: set<string>

    function View(): FsView
      reads this
    {
      FsView(sources, binaries, dirs, readOnly)
    }

    constructor (v: FsView)
      ensures View() == v
    {
      sources, binaries, dirs, readOnly := v.sources, v.binaries, v.dirs, v.readOnly;
    }

    /** `mkdir(p, 0755)`. */
    method Mkdir(p: string) returns (e: MkdirResult)
      modifies this`dirs
      ensures e == MkdirResultOf(old(View()), p)
      ensures View() == if e == Made then old(View()).(dirs := old(dirs) + {p}) else old(View())
    {
      e := MkdirResultOf(View(), p);
      if e == Made {
        dirs := dirs + {p};
      }
    }

    /** Open `p` in overwrite mode and write `bytes` to it. */
    method WriteBinary(p: string, bytes: seq<byte>) returns (ok: bool)
      modifies this`binaries
      ensures ok == CanCreateFile(old(View()), p)
      ensures View() == if ok then old(View()).(binaries := old(binaries)[p := bytes]) else old(View())
    {
      ok := CanCreateFile(View(), p);
      if ok {
        binaries := binaries[p := bytes];
      }
    }

    /** Open `p` in overwrite mode and write `text` to it; reading it back
        line by line yields `SplitLines(text)`. */
    method WriteText(p: string, text: string) returns (ok: bool)
      modifies this`sources
      ensures ok == CanCreateFile(old(View()), p)
      ensures View() == if ok then old(View()).(sources := old(sources)[p := SplitLines(text)]) else old(View())
    {
      ok := CanCreateFile(View(), p);
      if ok {
        sources := sources[p := SplitLines(text)];
      }
    }
  }
}
