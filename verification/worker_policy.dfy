/** The options of the native worker process: what its argument vector must say, whatever the order and
    spelling of the options. */
module WorkerPolicy {

  import opened Wrappers

  datatype Field = Context | Parallel | Key | Value | Model | FitTarget | Fit | Layers

  /** The pinned tables of the parser and of the accepted configuration. */
  datatype Tables = Tables(
    aliases: map<string, Field>, fixed: map<string, string>, switches: set<string>, port: string,
    defaults: map<Field, string>, expected: map<Field, string>, environment: map<string, string>,
    fitTarget: string)

  /** One option as it was meant. */
  datatype Setting = Switch(name: string) | Valued(name: string, value: string)

  predicate Takes(t: Tables, name: string) { name in t.aliases || name in t.fixed || name == t.port }

  /** Names have no `=`, and each has one meaning. */
  ghost predicate TablesInOrder(t: Tables) {
    && (forall n :: n in t.switches || Takes(t, n) ==> '=' !in n)
    && (forall n :: n in t.switches ==> !Takes(t, n))
    && (forall n :: n in t.aliases ==> n !in t.fixed && n != t.port)
    && t.fitTarget in t.environment && FitTarget in t.defaults && t.defaults[FitTarget] == t.environment[t.fitTarget]
  }

  const MODEL :=
    "/var/lib/ollama/models/blobs/sha256-85e4a5b7b8ef0e48af0e8658f5aaab9c2324c76c1641493f4d1e25fce54b18b9"

  const ALIASES: map<string, Field> := map[
    "-c" := Context, "--ctx-size" := Context, "-np" := Parallel, "--parallel" := Parallel,
    "-ctk" := Key, "--cache-type-k" := Key, "-ctv" := Value, "--cache-type-v" := Value,
    "-m" := Model, "--model" := Model, "-fitt" := FitTarget, "--fit-target" := FitTarget,
    "-fit" := Fit, "--fit" := Fit, "-ngl" := Layers, "--n-gpu-layers" := Layers, "--gpu-layers" := Layers]

  const FIXED: map<string, string> := map[
    "--host" := "127.0.0.1", "--log-verbosity" := "4", "--flash-attn" := "auto", "-b" := "512", "-ub" := "512",
    "--keep" := "4"]

  const SWITCHES := {"--no-webui", "--offline", "--no-log-prefix", "--no-log-timestamps", "--context-shift"}

  const DEFAULTS: map<Field, string> := map[Key := "f16", Value := "f16", Fit := "on", FitTarget := "512"]

  const EXPECTED: map<Field, string> := map[
    Context := "8192", Parallel := "1", Key := "f16", Value := "f16", Model := MODEL, FitTarget := "512",
    Fit := "on"]

  const ENVIRONMENT: map<string, string> := map[
    "LLAMA_ARG_CTX_SIZE" := "8192", "LLAMA_ARG_CACHE_TYPE_K" := "f16", "LLAMA_ARG_CACHE_TYPE_V" := "f16",
    "LLAMA_ARG_FIT" := "on", "OLLAMA_KV_CACHE_TYPE" := "f16", "LLAMA_ARG_N_PARALLEL" := "1",
    "LLAMA_ARG_MODEL" := MODEL, "LLAMA_ARG_FIT_TARGET" := "512"]

  /** The tables that the code pins. */
  const PINNED := Tables(ALIASES, FIXED, SWITCHES, "--port", DEFAULTS, EXPECTED, ENVIRONMENT, "LLAMA_ARG_FIT_TARGET")

  lemma PinnedTablesAreInOrder()
    ensures TablesInOrder(PINNED)
  {
    hide ALIASES, FIXED, SWITCHES, LikeSwitch, LikeFixed;
    NoNameHasTheSign();
    SwitchesAreAlike();
    AliasesAreNot();
    FixedAreAlike();
    assert "LLAMA_ARG_FIT_TARGET" in ENVIRONMENT && ENVIRONMENT["LLAMA_ARG_FIT_TARGET"] == "512";
  }

  lemma NoNameHasTheSign()
    ensures forall n :: n in ALIASES || n in FIXED || n in SWITCHES || n == "--port" ==> '=' !in n
  {
  }

  /** By length and a letter a switch is told from every other name. */
  predicate LikeSwitch(n: string) {
    |n| == 9 || |n| == 19 || (|n| == 10 && n[2] == 'n') || (|n| == 15 && n[2] != 'l')
  }

  /** And a fixed option or the port from every alias. */
  predicate LikeFixed(n: string) {
    || |n| == 6 || |n| == 15 || (|n| == 12 && n[3] == 'l') || (|n| == 2 && n[1] == 'b') || (|n| == 3 && n[1] == 'u')
  }

  lemma SwitchesAreAlike()
    ensures forall n :: n in SWITCHES ==> LikeSwitch(n)
  {
  }

  lemma AliasesAreNot()
    ensures forall n :: n in ALIASES ==> !LikeSwitch(n) && !LikeFixed(n)
  {
  }

  lemma FixedAreAlike()
    ensures forall n :: n in FIXED || n == "--port" ==> LikeFixed(n) && !LikeSwitch(n)
  {
  }

  // ----- argument vectors and settings

  /** str.partition("="): what stands before the first `=`. */
  function NameOf(token: string): (n: string)
    ensures '=' !in n && n <= token
    ensures |n| < |token| ==> token[|n|] == '='
  {
    if token == "" || token[0] == '=' then "" else [token[0]] + NameOf(token[1..])
  }

  lemma {:induction false} NameOfJoined(name: string, value: string)
    requires '=' !in name
    ensures NameOf(name) == name && NameOf(name + "=" + value) == name
  {
    if name != "" {
      NameOfJoined(name[1..], value);
      assert (name + "=" + value)[1..] == name[1..] + "=" + value;
    } else {
      assert (name + "=" + value)[0] == '=';
    }
  }

  predicate Known(t: Tables, s: Setting) {
    match s
    case Switch(n) => n in t.switches
    case Valued(n, _) => Takes(t, n)
  }

  /** The tokens of one option; joined: written with `=`. */
  function Tokens(s: Setting, joined: bool): seq<string> {
    match s
    case Switch(n) => [n]
    case Valued(n, v) => if joined then [n + "=" + v] else [n, v]
  }

  function Render(s: seq<Setting>, joined: seq<bool>): seq<string>
    requires |s| == |joined|
  {
    if s == [] then [] else Tokens(s[0], joined[0]) + Render(s[1..], joined[1..])
  }

  /** The first option of a vector: its meaning, and whether it is joined. */
  datatype First = First(setting: Setting, joined: bool)

  function Width(f: First): nat { if f.setting.Valued? && !f.joined then 2 else 1 }

  function FirstOf(t: Tables, tokens: seq<string>): (f: Option<First>)
    requires tokens != []
    ensures f.Some? ==> Width(f.value) <= |tokens|
  {
    var name := NameOf(tokens[0]);
    if name in t.switches then
      if name == tokens[0] then Some(First(Switch(name), false)) else None
    else if Takes(t, name) then
      if name != tokens[0] then Some(First(Valued(name, tokens[0][|name| + 1..]), true))
      else if |tokens| > 1 then Some(First(Valued(name, tokens[1]), false))
      else None
    else None
  }

  /** What an argument vector means, if anything. */
  function Parse(t: Tables, tokens: seq<string>): Option<seq<Setting>>
    decreases |tokens|
  {
    if tokens == [] then Some([])
    else
      match FirstOf(t, tokens)
      case None => None
      case Some(f) => Prepend(f.setting, Parse(t, tokens[Width(f)..]))
  }

  function Prepend(s: Setting, rest: Option<seq<Setting>>): Option<seq<Setting>> {
    match rest case None => None case Some(r) => Some([s] + r)
  }

  ghost predicate Means(t: Tables, tokens: seq<string>, s: seq<Setting>) {
    && (forall i :: 0 <= i < |s| ==> Known(t, s[i]))
    && exists joined: seq<bool> :: |joined| == |s| && Render(s, joined) == tokens
  }

  /** The first option is read off any text that begins with it, and what is read off is that text. */
  lemma FirstOfTokens(t: Tables, s: Setting, joined: bool, rest: seq<string>)
    requires TablesInOrder(t) && Known(t, s)
    ensures FirstOf(t, Tokens(s, joined) + rest) == Some(First(s, s.Valued? && joined))
  {
    NameOfJoined(s.name, if s.Valued? then s.value else "");
    if s.Valued? && joined {
      assert (s.name + "=" + s.value)[|s.name| + 1..] == s.value;
    }
  }

  lemma TokensOfFirst(t: Tables, tokens: seq<string>)
    requires tokens != [] && FirstOf(t, tokens).Some?
    ensures var f := FirstOf(t, tokens).value; Known(t, f.setting) && Tokens(f.setting, f.joined) == tokens[..Width(f)]
  {
    var name := NameOf(tokens[0]);
    if name != tokens[0] { assert tokens[0] == name + "=" + tokens[0][|name| + 1..]; }
  }

  /** Any spelling of known options is understood as these options. */
  lemma {:induction false} ParseOfRender(t: Tables, s: seq<Setting>, joined: seq<bool>)
    requires TablesInOrder(t) && |s| == |joined| && forall i :: 0 <= i < |s| ==> Known(t, s[i])
    ensures Parse(t, Render(s, joined)) == Some(s)
  {
    hide FirstOf, TablesInOrder, Known, NameOf;
    if s != [] {
      var tokens, rest := Tokens(s[0], joined[0]), Render(s[1..], joined[1..]);
      assert Known(t, s[0]);
      ParseOfRender(t, s[1..], joined[1..]);
      FirstOfTokens(t, s[0], joined[0], rest);
      assert (tokens + rest)[|tokens|..] == rest;
      assert [s[0]] + s[1..] == s;
    }
  }

  /** And what is understood has such a spelling. */
  lemma {:induction false} ParseIsMeaning(t: Tables, tokens: seq<string>)
    requires Parse(t, tokens).Some?
    ensures Means(t, tokens, Parse(t, tokens).value)
    decreases |tokens|
  {
    hide FirstOf, Known, Tokens, NameOf;
    if tokens == [] {
      assert Render([], []) == tokens;
    } else {
      var s, f := Parse(t, tokens).value, FirstOf(t, tokens).value;
      var rest := tokens[Width(f)..];
      ParseIsMeaning(t, rest);
      TokensOfFirst(t, tokens);
      assert Parse(t, rest) == Some(s[1..]);
      var tail: seq<bool> :| |tail| == |s[1..]| && Render(s[1..], tail) == rest;
      var joined := [f.joined] + tail;
      assert joined[1..] == tail;
      assert Render(s, joined) == tokens[..Width(f)] + rest == tokens;
      forall i | 0 <= i < |s| ensures Known(t, s[i]) {
        if i > 0 { assert s[i] == s[1..][i - 1]; }
      }
    }
  }

  lemma MeaningIsParse(t: Tables, tokens: seq<string>, s: seq<Setting>)
    requires TablesInOrder(t)
    ensures Means(t, tokens, s) <==> Parse(t, tokens) == Some(s)
  {
    if Means(t, tokens, s) {
      var joined: seq<bool> :| |joined| == |s| && Render(s, joined) == tokens;
      ParseOfRender(t, s, joined);
    }
    if Parse(t, tokens) == Some(s) {
      ParseIsMeaning(t, tokens);
    }
  }

  // ----- which settings are accepted

  predicate Decimal(s: string) { s != "" && forall i :: 0 <= i < |s| ==> '0' <= s[i] <= '9' }

  function NumberOf(s: string): nat
    requires forall i :: 0 <= i < |s| ==> '0' <= s[i] <= '9'
  {
    if s == "" then 0 else 10 * NumberOf(s[..|s| - 1]) + (s[|s| - 1] as int - '0' as int)
  }

  predicate PortOk(s: string) { Decimal(s) && 1 <= NumberOf(s) <= 65535 }

  predicate ValueOk(t: Tables, s: Setting) {
    s.Valued? && s.name !in t.aliases ==>
      if s.name == t.port then PortOk(s.value) else s.name in t.fixed && s.value == t.fixed[s.name]
  }

  predicate Sets(t: Tables, s: Setting, f: Field) { s.Valued? && s.name in t.aliases && t.aliases[s.name] == f }

  /** Two options collide when they have one name or set one field. */
  predicate Collide(t: Tables, a: Setting, b: Setting) {
    a.name == b.name || (a.Valued? && a.name in t.aliases && Sets(t, b, t.aliases[a.name]))
  }

  predicate NoneCollide(t: Tables, s: seq<Setting>) {
    forall i, j :: 0 <= i < j < |s| ==> !Collide(t, s[i], s[j])
  }

  /** The field is given this value: by an option, or else by default. */
  predicate Effective(t: Tables, s: seq<Setting>, f: Field, v: string) {
    || (exists i :: 0 <= i < |s| && Sets(t, s[i], f) && s[i].value == v)
    || ((forall i :: 0 <= i < |s| ==> !Sets(t, s[i], f)) && f in t.defaults && t.defaults[f] == v)
  }

  /** Each option once, the fixed ones with their value, and every field as expected, no other one set. */
  ghost predicate Admitted(t: Tables, s: seq<Setting>) {
    && NoneCollide(t, s)
    && (forall i :: 0 <= i < |s| ==> ValueOk(t, s[i]))
    && (forall f, v :: Effective(t, s, f, v) <==> f in t.expected && t.expected[f] == v)
  }

  predicate EnvironmentOk(t: Tables, environment: map<string, string>) {
    && t.fitTarget in environment
    && forall n :: n in environment ==> n in t.environment && environment[n] == t.environment[n]
  }

  // ----- the index loop

  /** The fields that options set, the later one last. */
  function Selected(t: Tables, s: seq<Setting>): map<Field, string> {
    if s == [] then map[]
    else
      var last, before := s[|s| - 1], Selected(t, s[..|s| - 1]);
      if last.Valued? && last.name in t.aliases then before[t.aliases[last.name] := last.value] else before
  }

  lemma {:induction false} FieldsOfSelected(t: Tables, s: seq<Setting>)
    ensures forall f :: f in Selected(t, s) <==> exists i :: 0 <= i < |s| && Sets(t, s[i], f)
  {
    if s != [] {
      var m := |s| - 1;
      FieldsOfSelected(t, s[..m]);
      forall f ensures f in Selected(t, s) <==> exists i :: 0 <= i < |s| && Sets(t, s[i], f) {
        assert f in Selected(t, s) <==> f in Selected(t, s[..m]) || Sets(t, s[m], f);
        if f in Selected(t, s[..m]) {
          var i :| 0 <= i < m && Sets(t, s[..m][i], f);
          assert Sets(t, s[i], f);
        }
        if i :| 0 <= i < m && Sets(t, s[i], f) { assert Sets(t, s[..m][i], f); }
      }
    }
  }

  lemma {:induction false} ValuesOfSelected(t: Tables, s: seq<Setting>, i: nat)
    requires NoneCollide(t, s) && i < |s| && s[i].Valued? && s[i].name in t.aliases
    ensures t.aliases[s[i].name] in Selected(t, s) && Selected(t, s)[t.aliases[s[i].name]] == s[i].value
  {
    var m := |s| - 1;
    if i < m {
      assert s[..m][i] == s[i] && !Collide(t, s[i], s[m]);
      ValuesOfSelected(t, s[..m], i);
    }
  }

  lemma SelectedIsSet(t: Tables, s: seq<Setting>)
    requires NoneCollide(t, s)
    ensures forall f :: f in Selected(t, s) <==> exists i :: 0 <= i < |s| && Sets(t, s[i], f)
    ensures forall i :: 0 <= i < |s| && s[i].Valued? && s[i].name in t.aliases ==>
              t.aliases[s[i].name] in Selected(t, s) && Selected(t, s)[t.aliases[s[i].name]] == s[i].value
  {
    hide Selected, Sets, NoneCollide;
    FieldsOfSelected(t, s);
    forall i | 0 <= i < |s| && s[i].Valued? && s[i].name in t.aliases
      ensures t.aliases[s[i].name] in Selected(t, s) && Selected(t, s)[t.aliases[s[i].name]] == s[i].value
    {
      ValuesOfSelected(t, s, i);
    }
  }

  lemma EffectiveIsMerged(t: Tables, s: seq<Setting>, f: Field, v: string)
    requires NoneCollide(t, s)
    ensures Effective(t, s, f, v) <==> f in t.defaults + Selected(t, s) && (t.defaults + Selected(t, s))[f] == v
  {
    hide Selected, NoneCollide;
    SelectedIsSet(t, s);
    if f in Selected(t, s) {
      var i :| 0 <= i < |s| && Sets(t, s[i], f);
      assert Selected(t, s)[f] == s[i].value;
    }
  }

  /** The loop's dictionary comparison says the same as Effective, field by field. */
  lemma EffectiveIsMerge(t: Tables, s: seq<Setting>)
    requires NoneCollide(t, s)
    ensures (t.defaults + Selected(t, s) == t.expected) <==>
            forall f, v :: Effective(t, s, f, v) <==> f in t.expected && t.expected[f] == v
  {
    hide Selected, NoneCollide, Effective;
    var merged := t.defaults + Selected(t, s);
    forall f, v ensures Effective(t, s, f, v) <==> f in merged && merged[f] == v { EffectiveIsMerged(t, s, f, v); }
    if forall f, v :: Effective(t, s, f, v) <==> f in t.expected && t.expected[f] == v {
      forall f ensures (f in merged <==> f in t.expected) && (f in merged ==> merged[f] == t.expected[f]) {
        if f in merged { assert Effective(t, s, f, merged[f]); }
        if f in t.expected { assert Effective(t, s, f, t.expected[f]); }
      }
    }
  }

  lemma ParsePrefixGrows(t: Tables, parsed: seq<Setting>, s: Setting, rest: Option<seq<Setting>>)
    ensures Joined(parsed, Prepend(s, rest)) == Joined(parsed + [s], rest)
  {
    if rest.Some? {
      assert parsed + ([s] + rest.value) == (parsed + [s]) + rest.value;
    }
  }

  function Joined(parsed: seq<Setting>, rest: Option<seq<Setting>>): Option<seq<Setting>> {
    match rest case None => None case Some(r) => Some(parsed + r)
  }

  /** What the loop has taken in is a prefix of the meaning, if there is one. */
  ghost predicate Follows(t: Tables, tokens: seq<string>, parsed: seq<Setting>, rest: seq<string>) {
    Parse(t, tokens) == Joined(parsed, Parse(t, rest))
  }

  /** The argument vector, after the program name, means settings that are admitted. */
  ghost predicate Accepts(t: Tables, tokens: seq<string>) {
    exists s :: Means(t, tokens, s) && Admitted(t, s)
  }

  /** The next option is unreadable, has a wrong value, or collides with one before it. */
  ghost predicate Spoils(t: Tables, parsed: seq<Setting>, rest: seq<string>)
    requires rest != []
  {
    match FirstOf(t, rest)
    case None => true
    case Some(f) => !ValueOk(t, f.setting) || exists i :: 0 <= i < |parsed| && Collide(t, parsed[i], f.setting)
  }

  lemma ReadOne(t: Tables, tokens: seq<string>, parsed: seq<Setting>, rest: seq<string>)
    requires Follows(t, tokens, parsed, rest) && rest != [] && FirstOf(t, rest).Some?
    ensures var f := FirstOf(t, rest).value; Follows(t, tokens, parsed + [f.setting], rest[Width(f)..])
  {
    var f := FirstOf(t, rest).value;
    ParsePrefixGrows(t, parsed, f.setting, Parse(t, rest[Width(f)..]));
  }

  /** Such an option is final: nothing that follows mends it. */
  lemma SpoiledIsDenied(t: Tables, tokens: seq<string>, parsed: seq<Setting>, rest: seq<string>)
    requires TablesInOrder(t) && Follows(t, tokens, parsed, rest) && rest != [] && Spoils(t, parsed, rest)
    ensures !Accepts(t, tokens)
  {
    hide TablesInOrder, FirstOf, Collide, ValueOk, Effective, Means;
    forall s | Means(t, tokens, s) ensures !Admitted(t, s) {
      MeaningIsParse(t, tokens, s);
      assert FirstOf(t, rest).Some?;
      ReadOne(t, tokens, parsed, rest);
      var f := FirstOf(t, rest).value;
      assert s[..|parsed| + 1] == parsed + [f.setting];
      assert s[|parsed|] == f.setting && forall i :: 0 <= i < |parsed| ==> s[i] == parsed[i];
    }
  }

  /** seen and selected are what the options read so far say. */
  ghost predicate Noted(t: Tables, parsed: seq<Setting>, seen: set<string>, selected: map<Field, string>) {
    && (forall n :: n in seen <==> exists i :: 0 <= i < |parsed| && parsed[i].name == n)
    && selected == Selected(t, parsed)
    && NoneCollide(t, parsed) && (forall i :: 0 <= i < |parsed| ==> ValueOk(t, parsed[i]))
  }

  /** One more option that does not spoil is noted by its name and, if an alias, by its field. */
  lemma NoteOne(t: Tables, parsed: seq<Setting>, seen: set<string>, selected: map<Field, string>, s: Setting)
    requires Noted(t, parsed, seen, selected) && ValueOk(t, s)
    requires forall i :: 0 <= i < |parsed| ==> !Collide(t, parsed[i], s)
    ensures Noted(t, parsed + [s], seen + {s.name}, Selected(t, parsed + [s]))
    ensures Selected(t, parsed + [s]) == if s.Valued? &&
        s.name in t.aliases then selected[t.aliases[s.name] := s.value] else selected
  {
  }

  /** A name or a field that is noted collides. */
  lemma NotedCollides(t: Tables, parsed: seq<Setting>, seen: set<string>, selected: map<Field, string>, s: Setting)
    requires Noted(t, parsed, seen, selected)
    ensures (exists i :: 0 <= i < |parsed| && Collide(t, parsed[i], s)) <==>
              s.name in seen || (s.Valued? && s.name in t.aliases && t.aliases[s.name] in selected)
  {
    SelectedIsSet(t, parsed);
  }

  lemma NothingRead(t: Tables, tokens: seq<string>)
    ensures Follows(t, tokens, [], tokens) && Noted(t, [], {}, map[])
  {
    if Parse(t, tokens).Some? { assert [] + Parse(t, tokens).value == Parse(t, tokens).value; }
  }

  /** The option at an index: a switch takes no value; the others take what follows `=`, or the next token. */
  method ReadOption(t: Tables, arguments: seq<string>, index: nat) returns (first: Option<First>)
    requires index < |arguments|
    ensures first == FirstOf(t, arguments[index..])
  {
    var token := arguments[index];
    var name := NameOf(token);
    var joined := |name| < |token|;
    if name in t.switches {
      first := if joined then None else Some(First(Switch(name), false));
    } else if Takes(t, name) {
      if joined {
        first := Some(First(Valued(name, token[|name| + 1..]), true));
      } else if index + 1 >= |arguments| {
        first := None;
      } else {
        first := Some(First(Valued(name, arguments[index + 1]), false));
      }
    } else {
      first := None;
    }
  }

  /** The index loop over the options, with the names seen and the fields selected. */
  method ReadOptions(t: Tables, arguments: seq<string>)
    returns (ok: bool, selected: map<Field, string>, ghost parsed: seq<Setting>)
    requires TablesInOrder(t) && arguments != []
    ensures ok ==> Parse(t, arguments[1..]) == Some(parsed) && NoneCollide(t, parsed) && selected == Selected(t, parsed)
    ensures ok ==> forall i :: 0 <= i < |parsed| ==> ValueOk(t, parsed[i])
    ensures !ok ==> !Accepts(t, arguments[1..])
  {
    hide TablesInOrder, Accepts, Collide, ValueOk, Selected, FirstOf, Follows, Noted;
    ghost var tokens := arguments[1..];
    selected, parsed := map[], [];
    var seen: set<string> := {};
    var index := 1;
    NothingRead(t, tokens);
    while index < |arguments|
      invariant 1 <= index <= |arguments|
      invariant Follows(t, tokens, parsed, arguments[index..]) && Noted(t, parsed, seen, selected)
    {
      ghost var rest := arguments[index..];
      var first := ReadOption(t, arguments, index);
      if first.None? {
        SpoiledIsDenied(t, tokens, parsed, rest);
        return false, selected, parsed;
      }
      var setting := first.value.setting;
      NotedCollides(t, parsed, seen, selected, setting);
      if setting.name in seen || !ValueOk(t, setting)
         || (setting.Valued? && setting.name in t.aliases && t.aliases[setting.name] in selected) {
        SpoiledIsDenied(t, tokens, parsed, rest);
        return false, selected, parsed;
      }
      ReadOne(t, tokens, parsed, rest);
      NoteOne(t, parsed, seen, selected, setting);
      seen := seen + {setting.name};
      if setting.Valued? && setting.name in t.aliases {
        selected := selected[t.aliases[setting.name] := setting.value];
      }
      assert rest[Width(first.value)..] == arguments[index + Width(first.value)..];
      parsed := parsed + [setting];
      index := index + Width(first.value);
    }
    assert arguments[index..] == [];
    AllRead(t, tokens, parsed, seen, selected);
    ok := true;
  }

  lemma AllRead(t: Tables, tokens: seq<string>, parsed: seq<Setting>, seen: set<string>, selected: map<Field, string>)
    requires Follows(t, tokens, parsed, []) && Noted(t, parsed, seen, selected)
    ensures Parse(t, tokens) == Some(parsed) && NoneCollide(t, parsed) && selected == Selected(t, parsed)
    ensures forall i :: 0 <= i < |parsed| ==> ValueOk(t, parsed[i])
  {
    assert parsed + [] == parsed;
  }

  /** native_worker_policy: accepted exactly when the vector has a program name and, after it, options that
      split into known ones used once each with the expected effect, in a permitted environment, with the
      pinned model in the material. */
  method NativeWorkerPolicy(t: Tables, arguments: seq<string>, environment: map<string, string>, modelPresent: bool)
    returns (accepted: bool)
    requires TablesInOrder(t)
    ensures accepted <==> arguments != [] && Accepts(t, arguments[1..]) && EnvironmentOk(t, environment) && modelPresent
  {
    hide Effective, Selected, Parse;
    if arguments == [] || t.fitTarget !in environment || environment[t.fitTarget] != t.environment[t.fitTarget] {
      return false;
    }
    var ok, selected, parsed := ReadOptions(t, arguments);
    if !ok { return false; }
    EffectiveIsMerge(t, parsed);
    MeaningIsParse(t, arguments[1..], parsed);
    forall s | Means(t, arguments[1..], s) ensures s == parsed { MeaningIsParse(t, arguments[1..], s); }
    accepted := t.defaults + selected == t.expected && EnvironmentOk(t, environment) && modelPresent;
  }

  // ----- order and spelling do not matter

  /** The same option up to the choice of an alias. */
  predicate SameSetting(t: Tables, a: Setting, b: Setting) {
    || a == b
    || (a.Valued? && b.Valued? && a.value == b.value && a.name in t.aliases && b.name in t.aliases
        && t.aliases[a.name] == t.aliases[b.name])
  }

  /** `order` and `back` renumber n positions, each undoing the other. */
  ghost predicate Renumbering(order: seq<nat>, back: seq<nat>, n: nat) {
    && |order| == |back| == n
    && (forall i :: 0 <= i < n ==> order[i] < n && back[order[i]] == i)
    && (forall k :: 0 <= k < n ==> back[k] < n && order[back[k]] == k)
  }

  /** The same options in another order and under other aliases. */
  ghost predicate SameOptions(t: Tables, a: seq<Setting>, b: seq<Setting>, order: seq<nat>, back: seq<nat>) {
    && |a| == |b| && Renumbering(order, back, |a|)
    && (forall i :: 0 <= i < |a| ==> SameSetting(t, a[order[i]], b[i]))
    && (forall i :: 0 <= i < |a| ==> Known(t, a[i]))
  }

  lemma AliasKeepsMeaning(t: Tables, a: Setting, b: Setting)
    requires TablesInOrder(t) && SameSetting(t, a, b) && Known(t, a)
    ensures Known(t, b) && (ValueOk(t, a) <==> ValueOk(t, b))
    ensures forall f :: Sets(t, a, f) <==> Sets(t, b, f)
    ensures a.Valued? == b.Valued? && (a.Valued? ==> a.value == b.value)
  {
  }

  lemma AliasKeepsCollision(t: Tables, a1: Setting, b1: Setting, a2: Setting, b2: Setting)
    requires TablesInOrder(t) && Known(t, a1) && Known(t, a2)
    requires SameSetting(t, a1, b1) && SameSetting(t, a2, b2)
    ensures Collide(t, b1, b2) ==> Collide(t, a1, a2) && Collide(t, a2, a1)
  {
  }

  lemma SameOptionsAreSymmetric(t: Tables, a: seq<Setting>, b: seq<Setting>, order: seq<nat>, back: seq<nat>)
    requires TablesInOrder(t) && SameOptions(t, a, b, order, back)
    ensures SameOptions(t, b, a, back, order)
  {
  }

  lemma EffectSurvives(t: Tables, a: seq<Setting>, b: seq<Setting>, order: seq<nat>, back: seq<nat>, f: Field,
      v: string)
    requires TablesInOrder(t) && SameOptions(t, a, b, order, back) && Effective(t, a, f, v)
    ensures Effective(t, b, f, v)
  {
    hide TablesInOrder, SameSetting, Known;
    if k :| 0 <= k < |a| && a[k].Valued? && Sets(t, a[k], f) && a[k].value == v {
      assert SameSetting(t, a[order[back[k]]], b[back[k]]);
      AliasKeepsMeaning(t, a[k], b[back[k]]);
      assert Sets(t, b[back[k]], f);
    } else {
      forall i | 0 <= i < |b| ensures !Sets(t, b[i], f) {
        AliasKeepsMeaning(t, a[order[i]], b[i]);
      }
    }
  }

  lemma AdmissionSurvives(t: Tables, a: seq<Setting>, b: seq<Setting>, order: seq<nat>, back: seq<nat>)
    requires TablesInOrder(t) && SameOptions(t, a, b, order, back) && Admitted(t, a)
    ensures Admitted(t, b)
  {
    hide TablesInOrder, SameSetting, Known, Collide, ValueOk, Effective;
    SameOptionsAreSymmetric(t, a, b, order, back);
    forall i, j | 0 <= i < j < |b| ensures !Collide(t, b[i], b[j]) {
      assert order[i] < order[j] || order[j] < order[i];
      AliasKeepsCollision(t, a[order[i]], b[i], a[order[j]], b[j]);
    }
    forall i | 0 <= i < |b| ensures ValueOk(t, b[i]) {
      AliasKeepsMeaning(t, a[order[i]], b[i]);
    }
    forall f, v ensures Effective(t, b, f, v) <==> f in t.expected && t.expected[f] == v {
      if Effective(t, b, f, v) { EffectSurvives(t, b, a, back, order, f, v); }
      if Effective(t, a, f, v) { EffectSurvives(t, a, b, order, back, f, v); }
    }
  }

  /** Neither the order of the options, nor the alias, nor the `=` form changes the verdict. */
  lemma OrderAndSpellingDoNotMatter(t: Tables, a: seq<Setting>, b: seq<Setting>, order: seq<nat>, back: seq<nat>,
                                    spellA: seq<bool>, spellB: seq<bool>)
    requires TablesInOrder(t) && SameOptions(t, a, b, order, back) && |spellA| == |a| && |spellB| == |b|
    ensures Accepts(t, Render(a, spellA)) <==> Accepts(t, Render(b, spellB))
  {
    hide TablesInOrder, SameSetting, Known, Admitted, Renumbering;
    SameOptionsAreSymmetric(t, a, b, order, back);
    OnlyMeaning(t, a, spellA);
    OnlyMeaning(t, b, spellB);
    if Admitted(t, a) { AdmissionSurvives(t, a, b, order, back); }
    if Admitted(t, b) { AdmissionSurvives(t, b, a, back, order); }
  }

  lemma OnlyMeaning(t: Tables, s: seq<Setting>, spelling: seq<bool>)
    requires TablesInOrder(t) && |spelling| == |s| && forall i :: 0 <= i < |s| ==> Known(t, s[i])
    ensures Accepts(t, Render(s, spelling)) <==> Admitted(t, s)
  {
    hide Admitted, TablesInOrder, Known;
    assert Means(t, Render(s, spelling), s);
    MeaningIsParse(t, Render(s, spelling), s);
    forall r | Means(t, Render(s, spelling), r) ensures r == s { MeaningIsParse(t, Render(s, spelling), r); }
  }

  // ----- what the pinned tables make of it

  /** Some option gives the field this value, under one of these names. */
  predicate Given(s: seq<Setting>, names: set<string>, value: string) {
    exists i :: 0 <= i < |s| && s[i].Valued? && s[i].name in names && s[i].value == value
  }

  /** No option gives the field another value. */
  predicate NeverOther(s: seq<Setting>, names: set<string>, value: string) {
    forall i :: 0 <= i < |s| && s[i].name in names ==> s[i].Valued? && s[i].value == value
  }

  /** All options that set the field. */
  function Names(t: Tables, f: Field): set<string> { set n | n in t.aliases && t.aliases[n] == f }

  lemma PinnedNames()
    ensures Names(PINNED, Context) == {"-c", "--ctx-size"} && Names(PINNED, Parallel) == {"-np", "--parallel"}
    ensures Names(PINNED, Key) == {"-ctk", "--cache-type-k"} && Names(PINNED, Value) == {"-ctv", "--cache-type-v"}
    ensures Names(PINNED, Model) == {"-m", "--model"} && Names(PINNED, FitTarget) == {"-fitt", "--fit-target"}
    ensures Names(PINNED, Fit) == {"-fit", "--fit"}
    ensures Names(PINNED, Layers) == {"-ngl", "--n-gpu-layers", "--gpu-layers"}
  {
    hide ALIASES, Names;
    ContextNames();
    ParallelNames();
    KeyNames();
    ValueNames();
    ModelNames();
    FitNames();
  }

  lemma ContextNames()
    ensures Names(PINNED, Context) == {"-c", "--ctx-size"}
  {
    hide FIXED, SWITCHES, EXPECTED, DEFAULTS, MODEL;
  }

  lemma ParallelNames()
    ensures Names(PINNED, Parallel) == {"-np", "--parallel"}
  {
    hide FIXED, SWITCHES, EXPECTED, DEFAULTS, MODEL;
  }

  lemma KeyNames()
    ensures Names(PINNED, Key) == {"-ctk", "--cache-type-k"}
  {
    hide FIXED, SWITCHES, EXPECTED, DEFAULTS, MODEL;
  }

  lemma ValueNames()
    ensures Names(PINNED, Value) == {"-ctv", "--cache-type-v"}
  {
    hide FIXED, SWITCHES, EXPECTED, DEFAULTS, MODEL;
  }

  lemma ModelNames()
    ensures Names(PINNED, Model) == {"-m", "--model"}
    ensures Names(PINNED, FitTarget) == {"-fitt", "--fit-target"}
  {
    hide FIXED, SWITCHES, EXPECTED, DEFAULTS, MODEL;
  }

  lemma FitNames()
    ensures Names(PINNED, Fit) == {"-fit", "--fit"}
    ensures Names(PINNED, Layers) == {"-ngl", "--n-gpu-layers", "--gpu-layers"}
  {
    hide FIXED, SWITCHES, EXPECTED, DEFAULTS, MODEL;
  }

  /** A field that has no default is given, with the expected value. */
  lemma RequiredIsGiven(t: Tables, s: seq<Setting>, f: Field)
    requires Admitted(t, s) && f in t.expected && f !in t.defaults
    ensures Given(s, Names(t, f), t.expected[f])
  {
    hide NoneCollide, ValueOk;
    assert Effective(t, s, f, t.expected[f]);
    var i :| 0 <= i < |s| && Sets(t, s[i], f) && s[i].value == t.expected[f];
  }

  lemma OthersAreNotGiven(t: Tables, s: seq<Setting>, f: Field)
    requires TablesInOrder(t) && Admitted(t, s) && forall i :: 0 <= i < |s| ==> Known(t, s[i])
    ensures f in t.expected ==> NeverOther(s, Names(t, f), t.expected[f])
    ensures f !in t.expected ==> forall i :: 0 <= i < |s| ==> s[i].name !in Names(t, f)
  {
    hide NoneCollide, ValueOk;
    forall i | 0 <= i < |s| && s[i].name in Names(t, f)
      ensures f in t.expected && s[i].Valued? && s[i].value == t.expected[f]
    {
      assert Known(t, s[i]) && s[i].Valued?;
      assert Sets(t, s[i], f);
      assert Effective(t, s, f, s[i].value);
    }
  }

  lemma PinnedExpectations()
    ensures EXPECTED.Keys == {Context, Parallel, Key, Value, Model, FitTarget, Fit}
    ensures EXPECTED[Context] == "8192" && EXPECTED[Parallel] == "1" && EXPECTED[Key] == EXPECTED[Value] == "f16"
    ensures EXPECTED[Model] == MODEL && EXPECTED[FitTarget] == "512" && EXPECTED[Fit] == "on"
    ensures DEFAULTS.Keys == {Key, Value, Fit, FitTarget}
  {
  }

  /** With the pinned tables: what an admitted vector must say, by name and value. */
  lemma PinnedRequires(s: seq<Setting>)
    requires Admitted(PINNED, s)
    ensures Given(s, {"-c", "--ctx-size"}, "8192") && Given(s, {"-np", "--parallel"}, "1")
    ensures Given(s, {"-m", "--model"}, MODEL)
  {
    hide Admitted, ALIASES, EXPECTED, DEFAULTS, MODEL, Given, Names;
    PinnedNames();
    PinnedExpectations();
    RequiredIsGiven(PINNED, s, Context);
    RequiredIsGiven(PINNED, s, Parallel);
    RequiredIsGiven(PINNED, s, Model);
  }

  /** And what it must not say otherwise; a number of layers not at all. */
  lemma PinnedExcludes(s: seq<Setting>)
    requires Admitted(PINNED, s) && forall i :: 0 <= i < |s| ==> Known(PINNED, s[i])
    ensures NeverOther(s, {"-c", "--ctx-size"}, "8192") && NeverOther(s, {"-np", "--parallel"}, "1")
    ensures NeverOther(s, {"-ctk", "--cache-type-k"}, "f16") && NeverOther(s, {"-ctv", "--cache-type-v"}, "f16")
    ensures NeverOther(s, {"-m", "--model"}, MODEL) && NeverOther(s, {"-fitt", "--fit-target"}, "512")
    ensures NeverOther(s, {"-fit", "--fit"}, "on")
    ensures forall i :: 0 <= i < |s| ==> s[i].name !in {"-ngl", "--n-gpu-layers", "--gpu-layers"}
  {
    hide Admitted, Known, ALIASES, FIXED, SWITCHES, EXPECTED, DEFAULTS, MODEL, TablesInOrder, NeverOther, Names;
    PinnedTablesAreInOrder();
    PinnedNames();
    PinnedExpectations();
    OthersAreNotGiven(PINNED, s, Context);
    OthersAreNotGiven(PINNED, s, Parallel);
    OthersAreNotGiven(PINNED, s, Key);
    OthersAreNotGiven(PINNED, s, Value);
    OthersAreNotGiven(PINNED, s, Model);
    OthersAreNotGiven(PINNED, s, FitTarget);
    OthersAreNotGiven(PINNED, s, Fit);
    OthersAreNotGiven(PINNED, s, Layers);
  }

  /** The options that are known at all: each stands alone or takes a value, by name. */
  lemma PinnedKnown(s: Setting)
    ensures Known(PINNED, s) <==>
            if s.Switch? then
              s.name in {"--no-webui", "--offline", "--no-log-prefix", "--no-log-timestamps", "--context-shift"}
            else
              || s.name in {"-c", "--ctx-size", "-np", "--parallel", "-ctk", "--cache-type-k", "-ctv",
                            "--cache-type-v", "-m", "--model", "-fitt", "--fit-target", "-fit", "--fit", "-ngl",
                            "--n-gpu-layers", "--gpu-layers"}
              || s.name in {"--host", "--log-verbosity", "--flash-attn", "-b", "-ub", "--keep", "--port"}
  {
  }

  /** The other options that may stand beside these. */
  lemma PinnedOthers(s: Setting)
    requires Known(PINNED, s) && s.name !in ALIASES
    ensures ValueOk(PINNED, s) <==>
            || s.Switch?
            || (s.name == "--port" && PortOk(s.value))
            || (s.name != "--port" &&
                (s.name, s.value) in {("--host", "127.0.0.1"), ("--log-verbosity", "4"), ("--flash-attn", "auto"),
                                      ("-b", "512"), ("-ub", "512"), ("--keep", "4")})
    ensures s.Switch? <==> s.name in {"--no-webui", "--offline", "--no-log-prefix", "--no-log-timestamps",
                                      "--context-shift"}
  {
    hide ALIASES, PortOk;
    PinnedTablesAreInOrder();
  }

  // ----- port numbers

  /** The usual text of a number. */
  function Text(n: nat): string {
    if n < 10 then [('0' as int + n) as char] else Text(n / 10) + [('0' as int + n % 10) as char]
  }

  function Zeros(k: nat): (z: string)
    ensures |z| == k && forall i :: 0 <= i < k ==> z[i] == '0'
  {
    seq(k, _ => '0')
  }

  lemma {:induction false} NumberOfText(k: nat, n: nat)
    ensures Decimal(Zeros(k) + Text(n)) && NumberOf(Zeros(k) + Text(n)) == n
  {
    hide NumberOf, Text;
    var last := ('0' as int + n % 10) as char;
    if n < 10 {
      TextOfDigit(n);
      NumberOfZeros(k);
      NumberOfOneMore(Zeros(k), last);
    } else {
      NumberOfText(k, n / 10);
      TextOfOneMore(n / 10, last);
      Regroup(Zeros(k), Text(n / 10), last);
      NumberOfOneMore(Zeros(k) + Text(n / 10), last);
    }
  }

  lemma {:induction false} NumberOfZeros(k: nat)
    ensures NumberOf(Zeros(k)) == 0
  {
    if k > 0 {
      assert Zeros(k)[..k - 1] == Zeros(k - 1);
      NumberOfZeros(k - 1);
    }
  }

  lemma TextOfOneMore(n: nat, c: char)
    requires n > 0 && '0' <= c <= '9'
    ensures Text(10 * n + (c as int - '0' as int)) == Text(n) + [c]
  {
  }

  lemma NumberOfOneMore(front: string, last: char)
    requires (forall i :: 0 <= i < |front| ==> '0' <= front[i] <= '9') && '0' <= last <= '9'
    ensures Decimal(front + [last])
    ensures NumberOf(front + [last]) == 10 * NumberOf(front) + (last as int - '0' as int)
    ensures front == "" ==> NumberOf(front) == 0
  {
    var s := front + [last];
    assert s[..|s| - 1] == front && s[|s| - 1] == last;
  }

  lemma {:induction false} TextOfNumber(s: string) returns (k: nat)
    requires Decimal(s)
    ensures s == Zeros(k) + Text(NumberOf(s))
  {
    hide NumberOf, Text, Zeros;
    var front, last := s[..|s| - 1], s[|s| - 1];
    assert s == front + [last];
    NumberOfOneMore(front, last);
    if front == "" {
      TextOfDigit(last as int - '0' as int);
      k := 0;
    } else {
      k := TextOfNumber(front);
      k := AnotherDigit(k, NumberOf(front), last);
    }
  }

  lemma AnotherDigit(k: nat, n: nat, c: char) returns (j: nat)
    requires '0' <= c <= '9'
    ensures (Zeros(k) + Text(n)) + [c] == Zeros(j) + Text(10 * n + (c as int - '0' as int))
  {
    hide Text, Zeros;
    if n > 0 {
      TextOfOneMore(n, c);
      Regroup(Zeros(k), Text(n), c);
      j := k;
    } else {
      TextOfDigit(0);
      OneMoreZero(k);
      TextOfDigit(c as int - '0' as int);
      j := k + 1;
    }
  }

  lemma Regroup(a: string, b: string, c: char)
    ensures (a + b) + [c] == a + (b + [c])
  {
  }

  lemma OneMoreZero(k: nat)
    ensures Zeros(k) + ['0'] == Zeros(k + 1)
  {
  }

  lemma TextOfDigit(d: nat)
    requires d < 10
    ensures Text(d) == [('0' as int + d) as char]
  {
  }

  /** A port is the text of a number from 1 to 65535, with any number of zeros before it. */
  lemma PortOkIff(s: string)
    ensures PortOk(s) <==> exists k, n :: 1 <= n <= 65535 && s == Zeros(k) + Text(n)
  {
    if PortOk(s) {
      var k := TextOfNumber(s);
      assert s == Zeros(k) + Text(NumberOf(s));
    }
    if k, n :| 1 <= n <= 65535 && s == Zeros(k) + Text(n) { NumberOfText(k, n); }
  }
}
