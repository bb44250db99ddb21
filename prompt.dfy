/** Prompt templates: locating a template file by name and substituting
    `{{name}}` placeholders in a single left-to-right pass. */
module Prompt {
  import opened Wrappers
  import opened Text

  /** The file name a template is looked up under: ".md" is appended unless present. */
  function TemplateFileName(name: string): (r: string)
    ensures EndsWith(r, ".md")
    ensures EndsWith(name, ".md") ==> r == name
    ensures !EndsWith(name, ".md") ==> r == name + ".md"
  {
    if EndsWith(name, ".md") then name else name + ".md"
  }

  /** `loadTemplate` over a directory listing `files` (path to contents); the path is
      the directory and the file name joined by one '/'. */
  function LoadTemplate(files: map<string, string>, promptsDir: string, name: string): (r: Result<string>)
    ensures var path := promptsDir + "/" + TemplateFileName(name);
      (r.Ok? <==> path in files)
      && (r.Ok? ==> r.value == files[path])
      && (r.Err? ==> r.message == "Prompt template not found: " + path)
  {
    var path := promptsDir + "/" + TemplateFileName(name);
    if path !in files then Err("Prompt template not found: " + path) else Ok(files[path])
  }

  /** A name and "name.md" find the same file. */
  lemma ExtensionOptional(files: map<string, string>, promptsDir: string, name: string)
    requires !EndsWith(name, ".md")
    ensures LoadTemplate(files, promptsDir, name) == LoadTemplate(files, promptsDir, name + ".md")
  {
    assert EndsWith(name + ".md", ".md") by {
      assert (name + ".md")[|name|..] == ".md";
    }
  }

  /** The length of the run of word characters of `s` starting at `from`. */
  function WordRun(s: string, from: nat): (n: nat)
    requires from <= |s|
    ensures from + n <= |s|
    ensures forall i :: from <= i < from + n ==> IsWordChar(s[i])
    ensures from + n == |s| || !IsWordChar(s[from + n])
    decreases |s| - from
  {
    if from == |s| || !IsWordChar(s[from]) then 0 else 1 + WordRun(s, from + 1)
  }

  /** The placeholder `{{name}}` that starts `t`, if any, and its length.
      The name is a maximal non-empty run of word characters. */
  function PlaceholderAt(t: string): (p: Option<(string, nat)>)
    ensures p.Some? ==> var (name, len) := p.value;
      len == |name| + 4 <= |t| && t[..len] == "{{" + name + "}}" && name != []
      && forall i :: 0 <= i < |name| ==> IsWordChar(name[i])
  {
    if |t| < 2 || t[0] != '{' || t[1] != '{' then None
    else
      var n := WordRun(t, 2);
      if n == 0 || 2 + n + 2 > |t| || t[2 + n] != '}' || t[3 + n] != '}' then None
      else
        assert t[..n + 4] == "{{" + t[2..2 + n] + "}}";
        Some((t[2..2 + n], n + 4))
  }

  /** The properties every plain object inherits from `Object.prototype` whose names
      `\w+` can spell, each with the text `replace` makes of it: a built-in function
      prints as its native-code source, and `__proto__` is the prototype object. */
  const PROTOTYPE: map<string, string> := map[
    "__proto__" := "[object Object]",
    "constructor" := "function Object() { [native code] }",
    "hasOwnProperty" := "function hasOwnProperty() { [native code] }",
    "isPrototypeOf" := "function isPrototypeOf() { [native code] }",
    "propertyIsEnumerable" := "function propertyIsEnumerable() { [native code] }",
    "toString" := "function toString() { [native code] }",
    "valueOf" := "function valueOf() { [native code] }",
    "toLocaleString" := "function toLocaleString() { [native code] }",
    "__defineGetter__" := "function __defineGetter__() { [native code] }",
    "__defineSetter__" := "function __defineSetter__() { [native code] }",
    "__lookupGetter__" := "function __lookupGetter__() { [native code] }",
    "__lookupSetter__" := "function __lookupSetter__() { [native code] }"
  ]

  /** What `key in vars ? vars[key]` sees on a plain object: its own keys first, then the
      inherited ones. */
  function Lookup(vars: map<string, string>): (env: map<string, string>)
    ensures forall k :: k in env <==> k in vars || k in PROTOTYPE
    ensures forall k :: k in vars ==> env[k] == vars[k]
    ensures forall k :: k !in vars && k in PROTOTYPE ==> env[k] == PROTOTYPE[k]
  {
    PROTOTYPE + vars
  }

  /** The text that replaces placeholder `name`: its value, or the placeholder itself. */
  function Substitute(name: string, env: map<string, string>): string {
    if name in env then env[name] else "{{" + name + "}}"
  }

  /** `renderTemplate`: every placeholder looked up in the variables and, failing that,
      among the inherited properties. */
  function RenderTemplate(t: string, vars: map<string, string>): string {
    Render(t, Lookup(vars))
  }

  /** The global `/\{\{(\w+)\}\}/` replacement over the names `env` resolves. The scan
      resumes after each match, so text a value brings in is never scanned again. */
  function Render(t: string, env: map<string, string>): (r: string)
    decreases |t|
  {
    if t == [] then []
    else match PlaceholderAt(t)
      case Some((name, len)) => Substitute(name, env) + Render(t[len..], env)
      case None => [t[0]] + Render(t[1..], env)
  }

  /** A placeholder at the head of the template is replaced, whatever follows it. */
  lemma PlaceholderStep(name: string, rest: string, vars: map<string, string>)
    requires name != [] && forall i :: 0 <= i < |name| ==> IsWordChar(name[i])
    ensures Render("{{" + name + "}}" + rest, vars) == Substitute(name, vars) + Render(rest, vars)
  {
    var t := "{{" + name + "}}" + rest;
    assert t[2..2 + |name|] == name;
    WordRunOf(t, 2, |name|);
    assert t[|name| + 4..] == rest;
  }

  lemma WordRunOf(s: string, from: nat, n: nat)
    requires from + n < |s|
    requires forall i :: from <= i < from + n ==> IsWordChar(s[i])
    requires !IsWordChar(s[from + n])
    ensures WordRun(s, from) == n
    decreases n
  {
    if n > 0 {
      WordRunOf(s, from + 1, n - 1);
    }
  }

  /** Text without '{' passes through unchanged and does not affect what follows. */
  lemma {:induction false} PlainPrefix(a: string, b: string, env: map<string, string>)
    requires PlainText(a)
    ensures Render(a + b, env) == a + Render(b, env)
    decreases |a|
  {
    if a != [] {
      PlainHead(a, b, env);
      PlainPrefix(a[1..], b, env);
      HeadThenTail(a, Render(b, env));
    } else {
      assert a + b == b;
    }
  }

  /** A first character other than '{' is copied and rendering goes on after it. */
  lemma PlainHead(a: string, b: string, env: map<string, string>)
    requires a != [] && a[0] != '{'
    ensures PlainText(a) ==> PlainText(a[1..])
    ensures Render(a + b, env) == [a[0]] + Render(a[1..] + b, env)
  {
    var t := a + b;
    assert t[0] == a[0];
    assert t[1..] == a[1..] + b;
  }

  /** The template built from plain pieces with a placeholder between consecutive pieces. */
  function Template(pieces: seq<string>, names: seq<string>): string
    requires |pieces| == |names| + 1
    decreases |names|
  {
    if names == [] then pieces[0]
    else pieces[0] + "{{" + names[0] + "}}" + Template(pieces[1..], names[1..])
  }

  /** The same pieces with each placeholder replaced by its value, or kept when unknown. */
  function Filled(pieces: seq<string>, names: seq<string>, vars: map<string, string>): string
    requires |pieces| == |names| + 1
    decreases |names|
  {
    if names == [] then pieces[0]
    else pieces[0] + Substitute(names[0], vars) + Filled(pieces[1..], names[1..], vars)
  }

  predicate PlainText(s: string) { forall i :: 0 <= i < |s| ==> s[i] != '{' }

  predicate IsName(s: string) { s != [] && forall i :: 0 <= i < |s| ==> IsWordChar(s[i]) }

  /** Every placeholder is substituted at every occurrence, known names by their value and
      unknown ones left verbatim, and the plain text between them is kept. */
  lemma {:induction false} RenderFills(pieces: seq<string>, names: seq<string>, vars: map<string, string>)
    requires |pieces| == |names| + 1
    requires forall i :: 0 <= i < |pieces| ==> PlainText(pieces[i])
    requires forall i :: 0 <= i < |names| ==> IsName(names[i])
    ensures Render(Template(pieces, names), vars) == Filled(pieces, names, vars)
    decreases |names|
  {
    if names == [] {
      PlainPrefix(pieces[0], [], vars);
      assert pieces[0] + [] == pieces[0];
    } else {
      var rest := Template(pieces[1..], names[1..]);
      assert PlainText(pieces[0]);
      assert Template(pieces, names) == pieces[0] + ("{{" + names[0] + "}}" + rest);
      PlainPrefix(pieces[0], "{{" + names[0] + "}}" + rest, vars);
      assert IsName(names[0]);
      PlaceholderStep(names[0], rest, vars);
      RenderFills(pieces[1..], names[1..], vars);
    }
  }

  /** No placeholder of `t` names a key of `env`. */
  predicate NoNameIn(t: string, env: map<string, string>) {
    forall j :: 0 <= j < |t| ==> PlaceholderAt(t[j..]).None? || PlaceholderAt(t[j..]).value.0 !in env
  }

  /** A template none of whose placeholders `env` resolves comes back unchanged. */
  lemma {:induction false} UnresolvedIdentity(t: string, env: map<string, string>)
    requires NoNameIn(t, env)
    ensures Render(t, env) == t
    decreases |t|
  {
    if t != [] {
      var p := PlaceholderAt(t);
      if p.Some? {
        var len := p.value.1;
        UnresolvedHead(t, env);
        NoNameInSuffix(t, env, len);
        UnresolvedIdentity(t[len..], env);
      } else {
        OtherHead(t, env);
        NoNameInSuffix(t, env, 1);
        UnresolvedIdentity(t[1..], env);
      }
    }
  }

  /** A leading placeholder that `env` does not resolve is copied as it is. */
  lemma UnresolvedHead(t: string, env: map<string, string>)
    requires NoNameIn(t, env) && PlaceholderAt(t).Some?
    ensures var len := PlaceholderAt(t).value.1;
      Render(t, env) == t[..len] + Render(t[len..], env)
      && (Render(t[len..], env) == t[len..] ==> Render(t, env) == t)
  {
    assert t[0..] == t;
    var len := PlaceholderAt(t).value.1;
    assert t[..len] + t[len..] == t;
  }

  /** A head that starts no placeholder is copied as it is. */
  lemma OtherHead(t: string, env: map<string, string>)
    requires t != [] && PlaceholderAt(t).None?
    ensures Render(t, env) == [t[0]] + Render(t[1..], env)
    ensures Render(t[1..], env) == t[1..] ==> Render(t, env) == t
  {
    assert [t[0]] + t[1..] == t;
  }

  lemma NoNameInSuffix(t: string, env: map<string, string>, k: nat)
    requires NoNameIn(t, env) && k <= |t|
    ensures NoNameIn(t[k..], env)
  {
    forall j | 0 <= j < |t[k..]|
      ensures PlaceholderAt(t[k..][j..]).None? || PlaceholderAt(t[k..][j..]).value.0 !in env
    {
      assert t[k..][j..] == t[k + j..];
    }
  }

  /** With no variables a template comes back unchanged, unless one of its placeholders
      names an inherited property. */
  lemma EmptyVarsIdentity(t: string)
    requires NoNameIn(t, PROTOTYPE)
    ensures RenderTemplate(t, map[]) == t
  {
    assert Lookup(map[]) == PROTOTYPE;
    UnresolvedIdentity(t, PROTOTYPE);
  }

  /** A placeholder naming an inherited property that the variables lack renders as that
      property's text: "{{constructor}}" becomes the source of the `Object` function. */
  lemma InheritedNameRendered(name: string, vars: map<string, string>)
    requires IsName(name) && name !in vars && name in PROTOTYPE
    ensures RenderTemplate("{{" + name + "}}", vars) == PROTOTYPE[name]
    ensures name == "constructor" ==> RenderTemplate("{{" + name + "}}", vars) == "function Object() { [native code] }"
  {
    PlaceholderStep(name, [], Lookup(vars));
    assert "{{" + name + "}}" + [] == "{{" + name + "}}";
  }

  /** A template without any placeholder comes back unchanged, whatever the variables. */
  lemma {:induction false} NoPlaceholderIdentity(t: string, vars: map<string, string>)
    requires forall j :: 0 <= j < |t| ==> PlaceholderAt(t[j..]).None?
    ensures Render(t, vars) == t
    decreases |t|
  {
    if t != [] {
      assert PlaceholderAt(t[0..]).None?;
      assert t[0..] == t;
      forall j | 0 <= j < |t[1..]| ensures PlaceholderAt(t[1..][j..]).None? {
        assert t[1..][j..] == t[j + 1..];
      }
      NoPlaceholderIdentity(t[1..], vars);
    }
  }

  /** A value is inserted as it is: placeholders inside it are not expanded. */
  lemma SinglePass(name: string, value: string, vars: map<string, string>)
    requires IsName(name) && name in vars && vars[name] == value
    ensures Render("{{" + name + "}}", vars) == value
  {
    PlaceholderStep(name, [], vars);
    assert "{{" + name + "}}" + [] == "{{" + name + "}}";
  }
}
