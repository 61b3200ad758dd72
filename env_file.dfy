// The `.env` loader and the required-variable check of env_utils.py.
// `os.environ` is the `vars` map of an `Environment` object; reading the
// file is an input: `None` when the path does not exist (or cannot be
// opened, which the `except` branch also answers with `False`), otherwise
// the file's lines.

module EnvFile {
  import opened Wrappers
  import opened PyText

  /** The value cleanup: strip, then surrounding `"`, then surrounding `'`. */
  function Unquote(value: string): (r: string)
    ensures |r| <= |value|
    ensures r == [] || (r[0] != '\'' && r[|r| - 1] != '\'')
  {
    StripChar(StripChar(Strip(value), '"'), '\'')
  }

  /** One line of the file: `None` for a line that is blank, a comment or
    * has no `=` once stripped; otherwise the stripped key before the first
    * `=` and the unquoted value after it. */
  function ParseEnvLine(line: string): (r: Option<(string, string)>)
    ensures r.Some? <==> var s := Strip(line); s != [] && s[0] != '#' && '=' in s
    ensures r.Some? ==> '=' !in r.value.0
  {
    var s := Strip(line);
    if s != [] && s[0] != '#' && '=' in s then
      var i := FirstIndex(s, '=');
      var key := Strip(s[..i]);
      StripBySlice(s[..i], IsSpace);
      assert '=' !in key by {
        var a := |s[..i]| - |LStrip(s[..i], IsSpace)|;
        forall j | 0 <= j < |key| ensures key[j] != '=' {
          assert key[j] == s[..i][a + j];
        }
      }
      Some((key, Unquote(s[i + 1..])))
    else None
  }

  /** `os.environ[key] = value` raises `ValueError` for an empty name and
    * for an embedded NUL character; the `=` that would also be rejected
    * cannot occur in a key cut before the first `=`. */
  predicate SetRaises(key: string, value: string) {
    key == [] || '\0' in key || '\0' in value
  }

  /** The assignment of every line, in file order. */
  function Assignments(lines: seq<string>): (ps: seq<Option<(string, string)>>)
    ensures |ps| == |lines|
    ensures forall k :: 0 <= k < |ps| ==> ps[k] == ParseEnvLine(lines[k])
  {
    seq(|lines|, k requires 0 <= k < |lines| => ParseEnvLine(lines[k]))
  }

  /** The assignment raises. */
  predicate Raises(p: Option<(string, string)>) {
    p.Some? && SetRaises(p.value.0, p.value.1)
  }

  /** The variable an assignment sets, if any. */
  predicate Assigns(p: Option<(string, string)>, key: string) {
    p.Some? && p.value.0 == key
  }

  /** The state after the assignments `ps` starting from `env`, and whether
    * the loader reports success: the first failing assignment ends the loop
    * and the `except` branch returns `False`, keeping the assignments before
    * it. */
  function Apply(env: map<string, string>, ps: seq<Option<(string, string)>>): (map<string, string>, bool)
    decreases |ps|
  {
    if ps == [] then (env, true)
    else if Raises(ps[0]) then (env, false)
    else Apply(if ps[0].Some? then env[ps[0].value.0 := ps[0].value.1] else env, ps[1..])
  }

  /** Loading the lines of a file. */
  function LoadFrom(env: map<string, string>, lines: seq<string>): (map<string, string>, bool) {
    Apply(env, Assignments(lines))
  }

  /** The variables the file must provide (`required_vars`). */
  const RequiredVars: seq<string> := ["DEEPSEEK_API_KEY"]

  /** `os.getenv(var)` is falsy: unset or empty. */
  predicate IsMissing(vars: map<string, string>, name: string) {
    name !in vars || vars[name] == ""
  }

  /** The required names that are missing, in order (`missing_vars`). */
  function MissingVars(vars: map<string, string>, names: seq<string>): (m: seq<string>)
    ensures forall x :: x in m <==> x in names && IsMissing(vars, x)
  {
    if names == [] then []
    else (if IsMissing(vars, names[0]) then [names[0]] else []) + MissingVars(vars, names[1..])
  }

  class Environment {
    var vars: map<string, string>

    constructor (initial: map<string, string>)
      ensures vars == initial
    {
      vars := initial;
    }

    /** `load_env_file`: `False` without touching the environment when the
      * file is absent; otherwise the lines are applied in order. */
    method LoadEnvFile(file: Option<seq<string>>) returns (loaded: bool)
      modifies this
      ensures file.None? ==> !loaded && vars == old(vars)
      ensures file.Some? ==> (vars, loaded) == LoadFrom(old(vars), file.value)
    {
      if file.None? {
        return false;
      }
      var lines := file.value;
      ghost var ps := Assignments(lines);
      var i := 0;
      while i < |lines|
        invariant 0 <= i <= |lines|
        invariant Apply(vars, ps[i..]) == Apply(old(vars), ps)
      {
        var parsed := ParseEnvLine(lines[i]);
        assert ps[i..][0] == parsed && ps[i..][1..] == ps[i + 1..];
        if parsed.Some? {
          var (key, value) := parsed.value;
          if SetRaises(key, value) {
            return false;
          }
          vars := vars[key := value];
        }
        i := i + 1;
      }
      loaded := true;
    }

    /** `check_required_env`: collects the missing names and succeeds when
      * there are none. */
    method CheckRequiredEnv() returns (ok: bool)
      ensures ok <==> MissingVars(vars, RequiredVars) == []
      ensures ok <==> "DEEPSEEK_API_KEY" in vars && vars["DEEPSEEK_API_KEY"] != ""
    {
      var missing: seq<string> := [];
      for k := 0 to |RequiredVars|
        invariant missing == MissingVars(vars, RequiredVars[..k])
      {
        MissingVarsStep(vars, RequiredVars, k);
        if IsMissing(vars, RequiredVars[k]) {
          missing := missing + [RequiredVars[k]];
        }
      }
      assert RequiredVars[..|RequiredVars|] == RequiredVars;
      ok := missing == [];
    }
  }

  lemma MissingVarsStep(vars: map<string, string>, names: seq<string>, k: nat)
    requires k < |names|
    ensures MissingVars(vars, names[..k + 1])
      == MissingVars(vars, names[..k]) + (if IsMissing(vars, names[k]) then [names[k]] else [])
  {
    assert names[..k + 1] == names[..k] + [names[k]];
    MissingVarsAppend(vars, names[..k], [names[k]]);
    assert [names[k]][1..] == [];
  }

  /** The missing names of two lists, one after the other. */
  lemma {:induction false} MissingVarsAppend(vars: map<string, string>, a: seq<string>, b: seq<string>)
    ensures MissingVars(vars, a + b) == MissingVars(vars, a) + MissingVars(vars, b)
    decreases |a|
  {
    if a == [] {
      assert a + b == b;
    } else {
      assert (a + b)[1..] == a[1..] + b;
      MissingVarsAppend(vars, a[1..], b);
    }
  }

  // ---------------------------------------------------------------------
  // Properties of the loader

  /** A blank, comment or `=`-less line changes nothing. */
  lemma IgnoredLine(env: map<string, string>, line: string, rest: seq<string>)
    requires var s := Strip(line); s == [] || s[0] == '#' || '=' !in s
    ensures LoadFrom(env, [line] + rest) == LoadFrom(env, rest)
  {
    assert Assignments([line] + rest)[1..] == Assignments(rest);
  }

  /** The line is cut at its first `=`: everything after it, including
    * later `=` characters, belongs to the value. */
  lemma SplitsAtFirstEquals(key: string, value: string)
    requires key != [] && !IsSpace(key[0]) && key[0] != '#' && '=' !in key
    requires value == [] || !IsSpace(value[|value| - 1])
    ensures ParseEnvLine(key + "=" + value) == Some((Strip(key), Unquote(value)))
  {
    var line := key + "=" + value;
    assert line[|key|] == '=';
    StripByNoop(line, IsSpace);
    FirstIndexAfter(key, '=', value);
    var i := FirstIndex(line, '=');
    assert line[..i] == key && line[i + 1..] == value;
  }

  /** Stripping one character off both ends of a string wrapped once in it. */
  lemma {:induction false} StripCharOneLayer(t: string, c: char)
    requires t != [] && t[0] != c && t[|t| - 1] != c
    ensures StripChar([c] + t + [c], c) == t
  {
    var s := [c] + t + [c];
    var drop := x => x == c;
    assert s[1..] == t + [c];
    assert LeadCount(t + [c], drop) == 0;
    assert LStrip(s, drop) == t + [c];
    assert (t + [c])[..|t|] == t;
    assert TrailCount(t, drop) == 0;
    assert TrailCount(t + [c], drop) == 1;
  }

  /** Double quotes are taken off before single quotes, so a value wrapped
    * in `'` keeps the `"` inside it: `'"x"'` becomes `"x"`. */
  lemma SingleQuotesOutside(t: string)
    requires t != [] && t[0] != '\'' && t[|t| - 1] != '\''
    ensures Unquote(['\''] + t + ['\'']) == t
  {
    var v := ['\''] + t + ['\''];
    StripByNoop(v, IsSpace);
    StripByNoop(v, x => x == '"');
    StripCharOneLayer(t, '\'');
  }

  /** A variable no line assigns keeps its value (or its absence), unless
    * the loop stops first, which also leaves it alone. */
  lemma {:induction false} UnassignedKept(env: map<string, string>, ps: seq<Option<(string, string)>>, key: string)
    requires forall j :: 0 <= j < |ps| ==> !Assigns(ps[j], key)
    ensures var m := Apply(env, ps).0;
      (key in m <==> key in env) && (key in env ==> m[key] == env[key])
    decreases |ps|
  {
    if ps != [] && !Raises(ps[0]) {
      assert !Assigns(ps[0], key);
      assert forall j :: 0 <= j < |ps| - 1 ==> ps[1..][j] == ps[j + 1];
      UnassignedKept(if ps[0].Some? then env[ps[0].value.0 := ps[0].value.1] else env, ps[1..], key);
    }
  }

  /** Later lines override earlier ones: after a successful load, a name
    * holds the value of the last line assigning it. */
  lemma {:induction false} LastAssignmentWins(env: map<string, string>, ps: seq<Option<(string, string)>>, i: nat,
                                              key: string, value: string)
    requires i < |ps| && ps[i] == Some((key, value))
    requires forall j :: i < j < |ps| ==> !Assigns(ps[j], key)
    requires Apply(env, ps).1
    ensures key in Apply(env, ps).0 && Apply(env, ps).0[key] == value
    decreases i
  {
    var next := if ps[0].Some? then env[ps[0].value.0 := ps[0].value.1] else env;
    assert Apply(env, ps) == Apply(next, ps[1..]);
    if i == 0 {
      assert forall j :: 0 <= j < |ps| - 1 ==> ps[1..][j] == ps[j + 1];
      UnassignedKept(next, ps[1..], key);
    } else {
      assert ps[1..][i - 1] == ps[i];
      assert forall j :: i - 1 < j < |ps| - 1 ==> ps[1..][j] == ps[j + 1];
      LastAssignmentWins(next, ps[1..], i - 1, key, value);
    }
  }

  /** The loader in terms of the lines: the last of the lines assigning a
    * name decides its value. */
  lemma LastLineWins(env: map<string, string>, lines: seq<string>, i: nat, key: string, value: string)
    requires i < |lines| && ParseEnvLine(lines[i]) == Some((key, value))
    requires forall j :: i < j < |lines| ==> ParseEnvLine(lines[j]).None? || ParseEnvLine(lines[j]).value.0 != key
    requires LoadFrom(env, lines).1
    ensures key in LoadFrom(env, lines).0 && LoadFrom(env, lines).0[key] == value
  {
    var ps := Assignments(lines);
    forall j | i < j < |ps| ensures !Assigns(ps[j], key) {
      assert ps[j] == ParseEnvLine(lines[j]);
    }
    LastAssignmentWins(env, ps, i, key, value);
  }

  /** A failed load is caused by a line whose assignment raises. */
  lemma {:induction false} FailureHasCause(env: map<string, string>, ps: seq<Option<(string, string)>>)
    requires !Apply(env, ps).1
    ensures exists j :: 0 <= j < |ps| && Raises(ps[j])
    decreases |ps|
  {
    if !Raises(ps[0]) {
      FailureHasCause(if ps[0].Some? then env[ps[0].value.0 := ps[0].value.1] else env, ps[1..]);
      var j :| 0 <= j < |ps| - 1 && Raises(ps[1..][j]);
      assert ps[1..][j] == ps[j + 1];
    }
  }
}
