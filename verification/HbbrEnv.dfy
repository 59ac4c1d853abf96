/** The relay process's own reader of `hbbr.toml`, which sets environment variables. */
module HbbrEnv {
  import opened Text
  import opened ConfigLines
  import opened ConfigText
  import opened ConfigEdit
  import opened ConfigTheorems

  type Env = map<string, string>

  function EnvName(sec: string, key: string): Option<string> {
    if sec == "server" && key == "port" then Some("PORT")
    else if sec == "key" && key == "secret" then Some("KEY")
    else None
  }

  /** The environment after these settings; `None` when setting a variable panics on a NUL character. */
  function EnvAfter(log: Log, env: Env): Option<Env>
    decreases log
  {
    if log == [] then Some(env) else
    match EnvName(log[0].sec, log[0].key)
    case Some(n) => if '\0' in log[0].val then None else EnvAfter(log[1..], env[n := log[0].val])
    case None => EnvAfter(log[1..], env)
  }

  /** `set_var`: panics on a NUL character in the value. */
  method SetVar(env: Env, name: string, val: string) returns (r: Option<Env>)
    ensures r == if '\0' in val then None else Some(env[name := val])
  {
    r := if '\0' in val then None else Some(env[name := val]);
  }

  method LoadHbbrTomlEnv(content: string, env: Env) returns (r: Option<Env>)
    ensures r == EnvAfter(Scan(Lines(content), ""), env)
  {
    var lines := Lines(content);
    var vars := env;
    var section := "";
    for i := 0 to |lines|
      invariant EnvAfter(Scan(lines, ""), env) == EnvAfter(Scan(lines[i..], section), vars)
    {
      ghost var rest := Scan(lines[i + 1..], NextSection(lines[i], section));
      assert lines[i..][1..] == lines[i + 1..] && Scan(lines[i..], section) == LineLog(lines[i], section) + rest;
      var res;
      section, res := LoadLine(lines[i], section, vars, rest);
      if res == None { return None; }
      vars := res.value;
    }
    r := Some(vars);
  }

  /** The loop body: what one line does to the section and the environment. */
  method LoadLine(line: string, section: string, vars: Env, ghost rest: Log) returns (next: string, r: Option<Env>)
    ensures next == NextSection(line, section)
    ensures EnvAfter(LineLog(line, section) + rest, vars) == if r == None then None else EnvAfter(rest, r.value)
  {
    next, r := section, Some(vars);
    var t := Trim(line);
    assert LineLog(line, section) == [] ==> LineLog(line, section) + rest == rest;
    if StartsWith(t, '[') && EndsWith(t, ']') {
      next := t[1..|t| - 1];
      return;
    }
    if StartsWith(t, '#') || t == "" {
      return;
    }
    var pos := IndexOf(t, '=');
    if pos < |t| {
      var k := Trim(t[..pos]);
      var v := Unquote(Trim(t[pos + 1..]));
      LoaderLine(line, section, rest, vars, k, v);
      if EnvName(section, k).Some? {
        r := SetVar(vars, EnvName(section, k).value, v);
      }
    }
  }

  /** The loader also takes a line with nothing before `=`, but no variable hangs on an empty key. */
  lemma LoaderLine(l: string, sec: string, rest: Log, env: Env, k: string, v: string)
    requires var t := Trim(l);
             !(StartsWith(t, '[') && EndsWith(t, ']')) && !StartsWith(t, '#') && t != "" && IndexOf(t, '=') < |t|
             && k == Trim(t[..IndexOf(t, '=')]) && v == Clean(t[IndexOf(t, '=') + 1..])
    ensures EnvAfter(LineLog(l, sec) + rest, env) ==
            if EnvName(sec, k) == None then EnvAfter(rest, env)
            else if '\0' in v then None
            else EnvAfter(rest, env[EnvName(sec, k).value := v])
  {
    if k != "" {
      assert ([Entry(sec, k, v)] + rest)[1..] == rest;
    } else {
      assert LineLog(l, sec) + rest == rest;
    }
  }

  /** The environment value a parameter is loaded into. */
  predicate LoadedFrom(env: Env, name: string, m: map<string, string>, api: string, before: Env) {
    if api in m then name in env && env[name] == m[api]
    else (name in env <==> name in before) && (name in before ==> env[name] == before[name])
  }

  lemma {:induction false} EnvReads(log: Log, env: Env, sec: string, key: string)
    requires EnvName(sec, key).Some? && EnvAfter(log, env).Some?
    ensures var n, e := EnvName(sec, key).value, EnvAfter(log, env).value;
            if Lookup(log, sec, key).Some? then n in e && e[n] == Lookup(log, sec, key).value
            else (n in e <==> n in env) && (n in env ==> e[n] == env[n])
    decreases log
  {
    if log != [] {
      var h := log[0];
      assert log == [h] + log[1..];
      LookupConcat([h], log[1..], sec, key);
      LookupOne(h, sec, key);
      EnvReads(log[1..], match EnvName(h.sec, h.key) case Some(n) => env[n := h.val] case None => env, sec, key);
    }
  }

  lemma {:induction false} OtherVariablesKept(log: Log, env: Env, name: string)
    requires EnvAfter(log, env).Some? && name != "PORT" && name != "KEY"
    ensures name in EnvAfter(log, env).value <==> name in env
    ensures name in env ==> EnvAfter(log, env).value[name] == env[name]
    decreases log
  {
    if log != [] {
      var h := log[0];
      OtherVariablesKept(log[1..], match EnvName(h.sec, h.key) case Some(n) => env[n := h.val] case None => env, name);
    }
  }

  /** Some setting the loader passes to `set_var` holds a NUL character. */
  predicate NulSetting(log: Log) {
    exists i :: 0 <= i < |log| && EnvName(log[i].sec, log[i].key).Some? && '\0' in log[i].val
  }

  lemma {:induction false} PanicsIff(log: Log, env: Env)
    ensures EnvAfter(log, env) == None <==> NulSetting(log)
    decreases log
  {
    if log != [] {
      var h := log[0];
      PanicsIff(log[1..], match EnvName(h.sec, h.key) case Some(n) => env[n := h.val] case None => env);
      if NulSetting(log[1..]) {
        var i :| 0 <= i < |log[1..]| && EnvName(log[1..][i].sec, log[1..][i].key).Some? && '\0' in log[1..][i].val;
        assert log[i + 1] == log[1..][i];
      }
      if NulSetting(log) && !(EnvName(h.sec, h.key).Some? && '\0' in h.val) {
        var i :| 0 <= i < |log| && EnvName(log[i].sec, log[i].key).Some? && '\0' in log[i].val;
        assert log[1..][i - 1] == log[i];
      }
    }
  }

  /**
   * Reader agreement, for every text: the loader panics exactly when a port or secret line holds a NUL; otherwise
   * PORT and KEY are the values the interface reports for the port and the key, and stay as they were when it
   * reports none.
   */
  lemma ReadersAgree(t: string, env: Env)
    ensures var log := Scan(Lines(t), "");
            (EnvAfter(log, env) == None <==> NulSetting(log))
            && (EnvAfter(log, env).Some? ==>
                 LoadedFrom(EnvAfter(log, env).value, "PORT", View(HbbrToml, log), "hbbr_port", env)
                 && LoadedFrom(EnvAfter(log, env).value, "KEY", View(HbbrToml, log), "hbbr_key", env))
  {
    var log := Scan(Lines(t), "");
    PanicsIff(log, env);
    ViewReads(HbbrToml, log, 0);
    ViewReads(HbbrToml, log, 2);
    if EnvAfter(log, env).Some? {
      EnvReads(log, env, "server", "port");
      EnvReads(log, env, "key", "secret");
    }
  }

  /**
   * A saved port or key reaches the relay process, whatever the file held before, unless the written file still holds
   * a port or secret line with a NUL, and exactly then the process panics.
   */
  lemma SavedReachesRelay(t: string, m: map<string, string>, env: Env)
    requires LineFree(HbbrToml, m)
    ensures var log := Scan(Lines(HbbrWritten(t, m)), ""); var r := EnvAfter(log, env);
      && (r == None <==> NulSetting(log))
      && (!NulSetting(log) && "hbbr_port" in m ==> "PORT" in r.value && r.value["PORT"] == Clean(m["hbbr_port"]))
      && (!NulSetting(log) && "hbbr_key" in m ==> "KEY" in r.value && r.value["KEY"] == Clean(m["hbbr_key"]))
  {
    HbbrSaved(t, m);
    ReadersAgree(HbbrWritten(t, m), env);
    assert Known(HbbrToml, "hbbr_port") by { TablesGood(HbbrToml); RowOf(KeyMap(HbbrToml), 0); }
    assert Known(HbbrToml, "hbbr_key") by { TablesGood(HbbrToml); RowOf(KeyMap(HbbrToml), 2); }
  }
}
