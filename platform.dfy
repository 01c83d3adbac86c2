/** The file system and the process environment as the configuration code sees them:
    the text of each file that exists, the paths that cannot be written, os.environ,
    os.getenv, os.path.join and the lines that iterating over a text file yields. */
module Platform {

  /** Files by path. A path in `files` exists; opening a path of `readOnly` for
      writing raises. */
  class FileStore {
    var files: map<string, string>
    var readOnly: set<string>

    constructor (files: map<string, string>, readOnly: set<string>)
      ensures this.files == files && this.readOnly == readOnly
    {
      this.files := files;
      this.readOnly := readOnly;
    }

    /** open(path, 'w').write(text): replaces or creates the file, or raises and
        changes nothing when the path cannot be written. */
    method Write(path: string, text: string) returns (ok: bool)
      modifies this
      ensures ok <==> path !in old(readOnly)
      ensures files == if ok then old(files)[path := text] else old(files)
      ensures readOnly == old(readOnly)
    {
      ok := path !in readOnly;
      if ok {
        files := files[path := text];
      }
    }
  }

  /** os.environ. */
  class Environment {
    var vars: map<string, string>

    constructor (vars: map<string, string>)
      ensures this.vars == vars
    {
      this.vars := vars;
    }
  }

  /** os.getenv(name, default). */
  function GetEnv(vars: map<string, string>, name: string, default: string): (v: string)
    ensures name in vars ==> v == vars[name]
    ensures name !in vars ==> v == default
  {
    if name in vars then vars[name] else default
  }

  /** Line ends as a text-mode file (universal newlines) recognises them. */
  predicate IsNewline(c: char) { c == '\n' || c == '\r' }

  /** The line-end characters of a text, in order. */
  function LineEnds(text: string): (ends: seq<char>)
    ensures |ends| <= |text|
    ensures forall k :: 0 <= k < |ends| ==> IsNewline(ends[k])
  {
    if text == [] then []
    else (if IsNewline(text[0]) then [text[0]] else []) + LineEnds(text[1..])
  }

  /** Lines put back together, each followed by its line end, the last by none. */
  function Unlines(ls: seq<string>, ends: seq<char>): string
    requires |ls| == |ends| + 1
  {
    if ends == [] then ls[0] else ls[0] + [ends[0]] + Unlines(ls[1..], ends[1..])
  }

  /** `for line in f` over a text file, each line without its line end: the lines hold no
      line end, there is one more line than line ends, and putting the text's own line
      ends back between them gives the text. A "\r\n" end yields an extra empty line,
      which every caller skips after strip(). */
  function Lines(text: string): (ls: seq<string>)
    ensures |ls| == |LineEnds(text)| + 1
    ensures forall i :: 0 <= i < |ls| ==> forall k :: 0 <= k < |ls[i]| ==> !IsNewline(ls[i][k])
    ensures Unlines(ls, LineEnds(text)) == text
  {
    if text == [] then [""]
    else
      var rest := Lines(text[1..]);
      if IsNewline(text[0]) then
        assert Unlines([""] + rest, LineEnds(text)) == [text[0]] + Unlines(rest, LineEnds(text[1..]));
        [""] + rest
      else
        var ls := [[text[0]] + rest[0]] + rest[1..];
        assert LineEnds(text) == LineEnds(text[1..]);
        assert ls[1..] == rest[1..];
        assert Unlines(ls, LineEnds(text)) == [text[0]] + Unlines(rest, LineEnds(text[1..]));
        ls
  }

  /** A text without line ends is a single line. */
  lemma {:induction false} LinesOfLine(line: string)
    requires forall k :: 0 <= k < |line| ==> !IsNewline(line[k])
    ensures Lines(line) == [line]
  {
    if line != [] {
      LinesOfLine(line[1..]);
      assert [line[0]] + line[1..] == line;
    }
  }

  /** Two texts joined by a line end give the lines of the first, then those of the
      second. */
  lemma {:induction false} LinesJoin(a: string, c: char, b: string)
    requires IsNewline(c)
    ensures Lines(a + [c] + b) == Lines(a) + Lines(b)
  {
    if a == [] {
      assert a + [c] + b == [c] + b;
      assert ([c] + b)[1..] == b;
    } else {
      var t := a + [c] + b;
      assert t[0] == a[0] && t[1..] == a[1..] + [c] + b;
      LinesJoin(a[1..], c, b);
    }
  }

  /** os.path.join(dir, name) on POSIX: an absolute name replaces the directory, and a
      slash goes between them unless the directory is empty or already ends in one. */
  function Join(dir: string, name: string): (path: string)
    ensures |path| >= |name| && path[|path| - |name|..] == name
    ensures name != [] && name[0] == '/' ==> path == name
  {
    if name != [] && name[0] == '/' then name
    else if dir == [] || dir[|dir| - 1] == '/' then dir + name
    else dir + "/" + name
  }
}
