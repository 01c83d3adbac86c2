/** load_env_file, which config/settings.py (lines 15-29) and config/alert_config.py
    (lines 13-27) each define with the same body: every line of a .env file of the form
    KEY=VALUE, after stripping, sets an environment variable. */
module EnvFile {
  import opened Text
  import opened Platform

  /** What one line of the file does. */
  datatype EnvLine = Skip | Assign(key: string, value: string)

  /** A stripped line that is empty, starts with '#' or holds no '=' is skipped; any other
      is split at its first '=' and both sides are stripped. */
  function ParseEnvLine(line: string): (r: EnvLine)
    ensures r.Skip? <==> Strip(line) == [] || Strip(line)[0] == '#' || '=' !in Strip(line)
    ensures r.Assign? ==> '=' !in r.key
  {
    var t := Strip(line);
    if t == [] || t[0] == '#' || '=' !in t then Skip
    else
      var parts := SplitFirst(t, '=');
      StripInside(parts.0, '=');
      Assign(Strip(parts.0), Strip(parts.1))
  }

  /** Strip keeps a substring, so it cannot bring in a character. */
  lemma StripInside(s: string, c: char)
    requires c !in s
    ensures c !in Strip(s)
  {
    var a := LeadingSpace(s);
    var t := s[a..];
    var n := TrailingSpace(t);
    forall k | 0 <= k < |t| - n ensures Strip(s)[k] != c {
      assert Strip(s)[k] == s[a + k];
    }
  }

  /** The line "a=b", with surrounding whitespace or not, assigns strip(a) = strip(b)
      whenever the stripped line does not start with '#' and a holds no '='. */
  lemma ParseEnvLineAssign(line: string, a: string, b: string)
    requires Strip(line) == a + "=" + b && '=' !in a && Strip(line)[0] != '#'
    ensures ParseEnvLine(line) == Assign(Strip(a), Strip(b))
  {
    assert a + "=" + b == a + ['='] + b;
    SplitFirstOf(a, b, '=');
  }

  /** os.environ[key] = value succeeds: putenv raises ValueError on an empty name and on
      an embedded NUL character. */
  predicate Settable(key: string, value: string) {
    key != [] && '\0' !in key && '\0' !in value
  }

  /** What each line of the file does. */
  function ParseLines(lines: seq<string>): (ps: seq<EnvLine>)
    ensures |ps| == |lines| && forall i :: 0 <= i < |lines| ==> ps[i] == ParseEnvLine(lines[i])
  {
    seq(|lines|, i requires 0 <= i < |lines| => ParseEnvLine(lines[i]))
  }

  /** The environment after the loop over the parsed lines, starting from vars: each
      assignment in order, until one raises, which ends the loop (the exception is caught
      outside it). */
  function Applied(vars: map<string, string>, ps: seq<EnvLine>): map<string, string>
    decreases |ps|
  {
    if ps == [] then vars
    else
      match ps[0]
      case Skip => Applied(vars, ps[1..])
      case Assign(k, v) => if Settable(k, v) then Applied(vars[k := v], ps[1..]) else vars
  }

  /** The line assigns key k. */
  predicate Assigns(p: EnvLine, k: string) {
    p.Assign? && p.key == k
  }

  /** The line is an assignment that raises. */
  predicate Raises(p: EnvLine) {
    p.Assign? && !Settable(p.key, p.value)
  }

  /** A variable no line assigns keeps what it had, set or unset. */
  lemma {:induction false} AppliedKeeps(vars: map<string, string>, ps: seq<EnvLine>, k: string)
    requires forall i :: 0 <= i < |ps| ==> !Assigns(ps[i], k)
    ensures k in Applied(vars, ps) <==> k in vars
    ensures k in vars ==> Applied(vars, ps)[k] == vars[k]
    decreases |ps|
  {
    if ps != [] {
      assert !Assigns(ps[0], k);
      forall i | 0 <= i < |ps| - 1 ensures !Assigns(ps[1..][i], k) {
        assert ps[1..][i] == ps[i + 1];
      }
      match ps[0]
      case Skip => AppliedKeeps(vars, ps[1..], k);
      case Assign(k', v) =>
        if Settable(k', v) { AppliedKeeps(vars[k' := v], ps[1..], k); }
    }
  }

  /** Later lines win: the last line that assigns a key decides its value, provided no
      line up to it raises. */
  lemma {:induction false} AppliedLast(vars: map<string, string>, ps: seq<EnvLine>, j: nat)
    requires j < |ps| && ps[j].Assign?
    requires forall i :: 0 <= i <= j ==> !Raises(ps[i])
    requires forall i :: j < i < |ps| ==> !Assigns(ps[i], ps[j].key)
    ensures ps[j].key in Applied(vars, ps) && Applied(vars, ps)[ps[j].key] == ps[j].value
    decreases j
  {
    var rest := ps[1..];
    assert !Raises(ps[0]);
    if j == 0 {
      forall i | 0 <= i < |rest| ensures !Assigns(rest[i], ps[0].key) {
        assert rest[i] == ps[i + 1];
      }
      AppliedKeeps(vars[ps[0].key := ps[0].value], rest, ps[0].key);
    } else {
      forall i | 0 <= i <= j - 1 ensures !Raises(rest[i]) {
        assert rest[i] == ps[i + 1];
      }
      forall i | j - 1 < i < |rest| ensures !Assigns(rest[i], rest[j - 1].key) {
        assert rest[i] == ps[i + 1];
      }
      match ps[0]
      case Skip => AppliedLast(vars, rest, j - 1);
      case Assign(k', v') => AppliedLast(vars[k' := v'], rest, j - 1);
    }
  }

  /** The first line that raises ends the loop: nothing after it is applied. */
  lemma {:induction false} AppliedStops(vars: map<string, string>, ps: seq<EnvLine>, j: nat)
    requires j < |ps| && Raises(ps[j])
    ensures Applied(vars, ps) == Applied(vars, ps[..j + 1])
    decreases j
  {
    if j > 0 {
      assert ps[1..][..j] == ps[..j + 1][1..];
      match ps[0]
      case Skip => AppliedStops(vars, ps[1..], j - 1);
      case Assign(k, v) =>
        if Settable(k, v) { AppliedStops(vars[k := v], ps[1..], j - 1); }
    }
  }

  /** load_env_file: nothing happens when the file does not exist; otherwise its lines
      are applied in order until an assignment raises. */
  method LoadEnvFile(envFile: string, fs: FileStore, env: Environment)
    modifies env
    ensures envFile !in fs.files ==> env.vars == old(env.vars)
    ensures envFile in fs.files ==>
      env.vars == Applied(old(env.vars), ParseLines(Lines(fs.files[envFile])))
  {
    if envFile !in fs.files {
      return;
    }
    var lines := Lines(fs.files[envFile]);
    ghost var ps := ParseLines(lines);
    for i := 0 to |lines|
      invariant Applied(env.vars, ps[i..]) == Applied(old(env.vars), ps)
    {
      assert ps[i..][1..] == ps[i + 1..];
      var p := ParseEnvLine(lines[i]);
      assert ps[i..][0] == p;
      match p
      case Skip =>
      case Assign(key, value) =>
        if !Settable(key, value) {
          // os.environ[key] raises ValueError; the except clause ends the loop
          return;
        }
        env.vars := env.vars[key := value];
    }
  }
}
