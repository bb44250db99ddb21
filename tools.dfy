/** The agent tool set: output truncation, the worktree containment guard applied
    to every path a tool touches, and the tools each agent role receives.
    Paths are modelled as lists of segments: `resolve` joins a relative path to the
    worktree, drops empty and "." segments and lets ".." remove the previous one. */
module Tools {
  import opened Wrappers
  import opened Text
  import opened Domain

  /** MAX_OUTPUT: the most UTF-16 code units a tool returns before truncation. */
  const MAX_OUTPUT: nat := 8 * 1024

  const TRUNCATION_MARKER: string := "\n... [truncated]"

  /** `truncate`: text of at most MAX_OUTPUT code units is returned as is; longer text
      keeps a prefix of MAX_OUTPUT code units (one less when the cut would split a
      surrogate pair) followed by the marker. */
  function Truncate(text: string): (r: string)
    ensures Utf16Length(text) <= MAX_OUTPUT ==> r == text
    ensures Utf16Length(text) > MAX_OUTPUT ==>
      && |r| >= |TRUNCATION_MARKER|
      && var kept := r[..|r| - |TRUNCATION_MARKER|];
      && r[|r| - |TRUNCATION_MARKER|..] == TRUNCATION_MARKER
      && |kept| < |text| && kept == text[..|kept|]
      && MAX_OUTPUT - 1 <= Utf16Length(kept) <= MAX_OUTPUT
  {
    if Utf16Length(text) <= MAX_OUTPUT then text
    else
      var kept := Utf16Prefix(text, MAX_OUTPUT);
      var r := kept + TRUNCATION_MARKER;
      assert r[..|r| - |TRUNCATION_MARKER|] == kept;
      assert kept != text;
      r
  }

  /** The output never exceeds MAX_OUTPUT code units plus the marker. */
  lemma TruncateBounded(text: string)
    ensures Utf16Length(Truncate(text)) <= MAX_OUTPUT + Utf16Length(TRUNCATION_MARKER)
  {
    if Utf16Length(text) > MAX_OUTPUT {
      Utf16LengthAppend(Utf16Prefix(text, MAX_OUTPUT), TRUNCATION_MARKER);
    }
  }

  /** The output starts with as much of the input as fits in MAX_OUTPUT code units. */
  lemma TruncateKeepsPrefix(text: string)
    ensures StartsWith(Truncate(text), Utf16Prefix(text, MAX_OUTPUT))
  {
    var kept := Utf16Prefix(text, MAX_OUTPUT);
    if Utf16Length(text) > MAX_OUTPUT {
      assert (kept + TRUNCATION_MARKER)[..|kept|] == kept;
    } else {
      assert text[..|text|] == text;
    }
  }

  /** On text of the Basic Multilingual Plane the cut keeps exactly the first
      MAX_OUTPUT characters. */
  lemma TruncateBmpCut(text: string)
    ensures Bmp(text) && |text| > MAX_OUTPUT ==> Truncate(text) == text[..MAX_OUTPUT] + TRUNCATION_MARKER
  {
    if Bmp(text) && |text| > MAX_OUTPUT {
      BmpLength(text);
      BmpPrefix(text, MAX_OUTPUT);
    }
  }

  /** A segment of a normalised absolute path. */
  predicate Segment(s: string) { s != "" && s != "." && s != ".." && NoSlash(s) }

  predicate Normalised(p: seq<string>) { forall i :: 0 <= i < |p| ==> Segment(p[i]) }

  /** Applies path segments to `base`: "" and "." stay, ".." goes up (never above the
      root), anything else goes down. */
  function Normalise(base: seq<string>, parts: seq<string>): (r: seq<string>)
    requires Normalised(base)
    requires forall i :: 0 <= i < |parts| ==> NoSlash(parts[i])
    ensures Normalised(r)
    decreases |parts|
  {
    if parts == [] then base
    else if parts[0] == "" || parts[0] == "." then Normalise(base, parts[1..])
    else if parts[0] == ".." then Normalise(if base == [] then [] else base[..|base| - 1], parts[1..])
    else Normalise(base + [parts[0]], parts[1..])
  }

  /** `path.resolve(worktree, filePath)`: an absolute file path starts from the root. */
  function Resolve(worktree: seq<string>, filePath: string): (r: seq<string>)
    requires Normalised(worktree)
    ensures Normalised(r)
  {
    if StartsWith(filePath, "/") then Normalise([], Split(filePath)) else Normalise(worktree, Split(filePath))
  }

  /** "/a/b" for ["a", "b"]; "" for no segments. */
  function Slashed(p: seq<string>): string {
    if p == [] then "" else "/" + p[0] + Slashed(p[1..])
  }

  /** The string form of an absolute path; the root is "/". */
  function PathString(p: seq<string>): string {
    if p == [] then "/" else Slashed(p)
  }

  /** `assertWithinWorktree`: the resolved target is accepted when its string equals the
      worktree's or starts with the worktree's followed by "/". A worktree other than the
      root contains exactly the paths it is a segment prefix of, so a sibling whose name
      merely begins with the worktree's name is refused. */
  function AssertWithinWorktree(worktree: seq<string>, filePath: string): (r: Result<string>)
    requires Normalised(worktree)
    ensures var target := Resolve(worktree, filePath);
      (worktree != [] ==> (r.Ok? <==> |worktree| <= |target| && target[..|worktree|] == worktree))
      && (worktree == [] ==> (r.Ok? <==> target == []))
      && (r.Ok? ==> r.value == PathString(target))
      && (r.Err? ==> r.message == "Path traversal blocked: " + filePath + " resolves outside worktree")
  {
    var target := Resolve(worktree, filePath);
    var t := PathString(target);
    var w := PathString(worktree);
    if !StartsWith(t, w + "/") && t != w then
      WithinIffPrefix(target, worktree);
      Err("Path traversal blocked: " + filePath + " resolves outside worktree")
    else
      WithinIffPrefix(target, worktree);
      Ok(t)
  }

  /** The string test of the guard, stated on segments. */
  lemma WithinIffPrefix(target: seq<string>, worktree: seq<string>)
    requires Normalised(target) && Normalised(worktree)
    ensures var t := PathString(target); var w := PathString(worktree);
      (worktree != [] ==> (StartsWith(t, w + "/") || t == w <==> |worktree| <= |target| && target[..|worktree|] == worktree))
      && (worktree == [] ==> (StartsWith(t, w + "/") || t == w <==> target == []))
  {
    var t := PathString(target);
    var w := PathString(worktree);
    if worktree == [] {
      assert w + "/" == "//";
      if target != [] {
        assert t[0] == '/' && t[1] == target[0][0];
        assert t != w;
      }
    } else if target == [] {
      assert |w| >= 2;
      assert !StartsWith(t, w + "/");
    } else {
      SlashedPrefix(target, worktree);
      SlashedInjective(target, worktree);
    }
  }

  /** A non-empty path is empty or starts with '/' when slashed. */
  lemma SlashedLed(p: seq<string>)
    requires Normalised(p)
    ensures Slashed(p) == [] || Slashed(p)[0] == '/'
    ensures p != [] ==> |Slashed(p)| >= 2
  {
    if p != [] {
      assert Segment(p[0]);
    }
  }

  /** The index of the first '/' of `s`, or its length when there is none. */
  function SlashPos(s: string): (n: nat)
    ensures n <= |s|
  {
    if s == [] || s[0] == '/' then 0 else 1 + SlashPos(s[1..])
  }

  lemma {:induction false} SlashPosAfter(a: string, y: string)
    requires NoSlash(a)
    requires y == [] || y[0] == '/'
    ensures SlashPos(a + y) == |a|
    decreases |a|
  {
    if a == [] {
      assert a + y == y;
    } else {
      assert (a + y)[1..] == a[1..] + y;
      SlashPosAfter(a[1..], y);
    }
  }

  /** A slash inside a prefix is the first slash of the whole text. */
  lemma {:induction false} SlashPosPrefix(s: string, k: nat)
    requires k <= |s| && SlashPos(s[..k]) < k
    ensures SlashPos(s) == SlashPos(s[..k])
    decreases k
  {
    if s[0] != '/' {
      assert s[..k][1..] == s[1..][..k - 1];
      SlashPosPrefix(s[1..], k - 1);
    }
  }

  /** The leading segment of two slashed paths must agree for one to start with the other,
      when what follows the second one's segment starts with '/'. */
  lemma HeadSplit(a: string, b: string, y: string, z: string)
    requires NoSlash(a) && NoSlash(b)
    requires y == [] || y[0] == '/'
    requires z != [] && z[0] == '/'
    ensures StartsWith("/" + a + y, "/" + b + z) <==> a == b && StartsWith(y, z)
  {
    var l := "/" + a + y;
    var r := "/" + b + z;
    if a == b && StartsWith(y, z) {
      assert l[..|r|] == "/" + a + y[..|z|];
    }
    if StartsWith(l, r) {
      var k := |b| + |z|;
      assert (a + y)[..k] == b + z by {
        assert l[1..][..k] == l[..|r|][1..];
        assert l[1..] == a + y;
      }
      SlashPosAfter(a, y);
      SlashPosAfter(b, z);
      SlashPosPrefix(a + y, k);
      assert |a| == |b|;
      assert a == (a + y)[..|a|] == (b + z)[..|b|] == b;
      assert y[..|z|] == (a + y)[|a|..k];
    }
  }

  /** Equality version of HeadSplit. */
  lemma HeadEqual(a: string, b: string, y: string, z: string)
    requires NoSlash(a) && NoSlash(b)
    requires y == [] || y[0] == '/'
    requires z == [] || z[0] == '/'
    ensures "/" + a + y == "/" + b + z <==> a == b && y == z
  {
    var l := "/" + a + y;
    var r := "/" + b + z;
    if l == r {
      assert a + y == l[1..] == r[1..] == b + z;
      SlashPosAfter(a, y);
      SlashPosAfter(b, z);
      assert |a| == |b|;
      assert a == (a + y)[..|a|] && b == (b + z)[..|b|];
      assert y == (a + y)[|a|..] && z == (b + z)[|b|..];
    }
  }

  /** One slashed path starts with another followed by '/' exactly when the second is
      a proper segment prefix of the first. */
  lemma {:induction false} SlashedPrefix(target: seq<string>, worktree: seq<string>)
    requires Normalised(target) && Normalised(worktree) && worktree != []
    ensures StartsWith(Slashed(target), Slashed(worktree) + "/")
      <==> |worktree| < |target| && target[..|worktree|] == worktree
    decreases |worktree|
  {
    var z := Slashed(worktree[1..]) + "/";
    assert Slashed(worktree) + "/" == "/" + worktree[0] + z;
    SlashedLed(worktree[1..]);
    assert z[0] == '/';
    if target == [] {
      assert |Slashed(target)| < |Slashed(worktree) + "/"|;
    } else {
      var y := Slashed(target[1..]);
      SlashedLed(target[1..]);
      assert Slashed(target) == "/" + target[0] + y;
      HeadSplit(target[0], worktree[0], y, z);
      if worktree[1..] == [] {
        assert z == "/";
        SlashedLed(target[1..]);
        assert StartsWith(y, z) <==> target[1..] != [];
        if target[0] == worktree[0] && |target| > 1 {
          assert target[..1] == worktree;
        }
      } else {
        assert Normalised(target[1..]) && Normalised(worktree[1..]);
        SlashedPrefix(target[1..], worktree[1..]);
        if target[0] == worktree[0] && |worktree| < |target| && target[1..][..|worktree| - 1] == worktree[1..] {
          assert target[..|worktree|] == [target[0]] + target[1..][..|worktree| - 1];
          assert worktree == [worktree[0]] + worktree[1..];
        }
        if |worktree| < |target| && target[..|worktree|] == worktree {
          assert target[1..][..|worktree| - 1] == target[..|worktree|][1..];
        }
      }
    }
  }

  /** Slashing is injective on normalised paths. */
  lemma {:induction false} SlashedInjective(p: seq<string>, q: seq<string>)
    requires Normalised(p) && Normalised(q)
    ensures Slashed(p) == Slashed(q) <==> p == q
    decreases |p|
  {
    if p != [] && q != [] {
      SlashedLed(p[1..]);
      SlashedLed(q[1..]);
      HeadEqual(p[0], q[0], Slashed(p[1..]), Slashed(q[1..]));
      SlashedInjective(p[1..], q[1..]);
      if p[0] == q[0] && p[1..] == q[1..] {
        assert p == [p[0]] + p[1..] && q == [q[0]] + q[1..];
      }
    } else if p != [] {
      SlashedLed(p);
    } else if q != [] {
      SlashedLed(q);
    }
  }

  /** Splitting at a slash that follows a slash-free piece. */
  lemma {:induction false} SplitAfter(a: string, y: string)
    requires NoSlash(a)
    ensures Split(a + "/" + y) == [a] + Split(y)
    decreases |a|
  {
    if a == [] {
      assert a + "/" + y == "/" + y;
      assert ("/" + y)[1..] == y;
    } else {
      SplitAfter(a[1..], y);
      assert (a + "/" + y)[1..] == a[1..] + "/" + y;
      assert [a[0]] + a[1..] == a;
    }
  }

  /** Splitting a slashed path gives its segments after one empty leading part. */
  lemma {:induction false} SplitSlashed(p: seq<string>)
    requires Normalised(p) && p != []
    ensures Split(Slashed(p)) == [""] + p
    decreases |p|
  {
    assert Slashed(p) == "/" + (p[0] + Slashed(p[1..]));
    assert ("/" + (p[0] + Slashed(p[1..])))[1..] == p[0] + Slashed(p[1..]);
    if p[1..] == [] {
      assert p[0] + Slashed(p[1..]) == p[0];
      SplitNoSlash(p[0]);
      assert p == [p[0]];
    } else {
      var rest := Slashed(p[1..])[1..];
      SlashedLed(p[1..]);
      assert Slashed(p[1..]) == "/" + rest;
      assert p[0] + Slashed(p[1..]) == p[0] + "/" + rest;
      SplitAfter(p[0], rest);
      SplitSlashed(p[1..]);
      assert ("/" + rest)[1..] == rest;
      assert Split(Slashed(p[1..])) == [""] + Split(rest);
      assert ([""] + Split(rest))[1..] == Split(rest);
      assert ([""] + p[1..])[1..] == p[1..];
      assert Split(rest) == p[1..];
      assert p == [p[0]] + p[1..];
    }
  }

  lemma {:induction false} NormaliseDown(base: seq<string>, p: seq<string>)
    requires Normalised(base) && Normalised(p)
    ensures Normalise(base, p) == base + p
    decreases |p|
  {
    if p != [] {
      NormaliseDown(base + [p[0]], p[1..]);
      assert base + [p[0]] + p[1..] == base + p;
    }
  }

  /** Resolving the string form of an absolute path gives that path back, whatever the
      worktree. */
  lemma ResolvePathString(worktree: seq<string>, p: seq<string>)
    requires Normalised(worktree) && Normalised(p)
    ensures Resolve(worktree, PathString(p)) == p
  {
    if p == [] {
      assert "/"[1..] == "";
      assert Split("/") == ["", ""];
      assert ["", ""][1..] == [""];
      assert Normalise([], [""]) == [];
    } else {
      SplitSlashed(p);
      SlashedLed(p);
      assert StartsWith(PathString(p), "/");
      assert ([""] + p)[1..] == p;
      NormaliseDown([], p);
      assert [] + p == p;
    }
  }

  /** A sibling directory whose name starts with the worktree's last segment is outside
      the worktree. */
  lemma SiblingRejected(worktree: seq<string>, sibling: string)
    requires Normalised(worktree) && worktree != []
    requires Segment(sibling) && sibling != worktree[|worktree| - 1]
    ensures AssertWithinWorktree(worktree, PathString(worktree[..|worktree| - 1] + [sibling])).Err?
  {
    var p := worktree[..|worktree| - 1] + [sibling];
    ResolvePathString(worktree, p);
    assert p[|worktree| - 1] != worktree[|worktree| - 1];
  }

  /** "../x" from the worktree leaves it unless x names the worktree itself. */
  lemma ParentEscapeRejected(worktree: seq<string>, name: string)
    requires Normalised(worktree) && worktree != [] && NoSlash(name)
    requires name != worktree[|worktree| - 1]
    ensures AssertWithinWorktree(worktree, "../" + name).Err?
  {
    assert "../" + name == ".." + "/" + name;
    SplitAfter("..", name);
    SplitNoSlash(name);
    assert ("../" + name)[0] != '/';
    assert !StartsWith("../" + name, "/");
    var up := worktree[..|worktree| - 1];
    assert Split("../" + name) == ["..", name];
    assert ["..", name][1..] == [name];
    assert Normalise(worktree, ["..", name]) == Normalise(up, [name]);
    var target := Resolve(worktree, "../" + name);
    assert target == Normalise(up, [name]);
    if name == "" || name == "." {
      assert target == up;
    } else if name == ".." {
      assert |target| < |worktree|;
    } else {
      NormaliseDown(up, [name]);
      assert target == up + [name];
      assert target[|worktree| - 1] == name;
    }
  }

  /** A plain relative name stays inside any worktree other than the root. */
  lemma PlainRelativeAccepted(worktree: seq<string>, name: string)
    requires Normalised(worktree) && worktree != [] && Segment(name)
    ensures AssertWithinWorktree(worktree, name) == Ok(PathString(worktree + [name]))
  {
    SplitNoSlash(name);
    assert name[0] != '/';
    assert !StartsWith(name, "/");
    NormaliseDown(worktree, [name]);
    assert Resolve(worktree, name) == worktree + [name];
    assert (worktree + [name])[..|worktree|] == worktree;
  }

  /** The tools an agent can be given, in the order they are listed. */
  datatype ToolName = ReadFile | ListDirectory | SearchFiles | Grep | WriteFile | Bash {
    function Name(): string {
      match this
      case ReadFile => "read_file"
      case ListDirectory => "list_directory"
      case SearchFiles => "search_files"
      case Grep => "grep"
      case WriteFile => "write_file"
      case Bash => "bash"
    }

    /** The tool changes the worktree or runs commands in it. */
    predicate Writes() { this == WriteFile || this == Bash }
  }

  const ReadOnlyTools: seq<ToolName> := [ReadFile, ListDirectory, SearchFiles, Grep]

  /** `createToolsForRole`: the coder gets the read-only tools followed by write_file and
      bash; every other role gets the read-only tools only. */
  function ToolsForRole(role: AgentRole): (tools: seq<ToolName>)
    ensures |tools| >= 4 && tools[..4] == ReadOnlyTools
    ensures role == CoderRole ==> tools == ReadOnlyTools + [WriteFile, Bash]
    ensures role != CoderRole ==> tools == ReadOnlyTools
    ensures forall t :: t in tools && t.Writes() ==> role == CoderRole
  {
    if role == CoderRole then ReadOnlyTools + [WriteFile, Bash] else ReadOnlyTools
  }

  /** Every role's tool names are distinct, and only the coder can write. */
  lemma ToolNamesDistinct(role: AgentRole)
    ensures var tools := ToolsForRole(role);
      forall i, j :: 0 <= i < j < |tools| ==> tools[i].Name() != tools[j].Name()
    ensures (exists t :: t in ToolsForRole(role) && t.Writes()) <==> role == CoderRole
  {
    if role == CoderRole {
      assert WriteFile in ToolsForRole(role);
    }
  }

  /** write_file's report: the number given is the content's JavaScript `length`, its
      count of UTF-16 code units, whatever its size in bytes. */
  function WriteReport(path: string, content: string): (r: string)
    ensures r == "Written " + NatToString(Utf16Length(content)) + " bytes to " + path
  {
    "Written " + NatToString(Utf16Length(content)) + " bytes to " + path
  }

  /** Two contents give the same report exactly when they have the same length. */
  lemma WriteReportCountsLength(path: string, c1: string, c2: string)
    ensures WriteReport(path, c1) == WriteReport(path, c2) <==> Utf16Length(c1) == Utf16Length(c2)
  {
    var a, b := NatToString(Utf16Length(c1)), NatToString(Utf16Length(c2));
    var tail := " bytes to " + path;
    if WriteReport(path, c1) == WriteReport(path, c2) {
      assert WriteReport(path, c1) == "Written " + (a + tail);
      assert WriteReport(path, c2) == "Written " + (b + tail);
      assert a + tail == ("Written " + (a + tail))[8..] == ("Written " + (b + tail))[8..] == b + tail;
      DigitRunOfDigits(a, tail);
      DigitRunOfDigits(b, tail);
      assert a == (a + tail)[..|a|] == (b + tail)[..|b|] == b;
      NatToStringInjective(Utf16Length(c1), Utf16Length(c2));
    }
  }
}
