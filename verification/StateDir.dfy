/**
 * Where the engine keeps its state.  A configured value is resolved against the work root, by one
 * normaliser for the configuration and by another for the state directory, and must not be the work
 * root or one of its ancestors.  Paths are Unix path strings.
 */
module StateDir {
  import opened Common

  // ------------------------------------------------------------ path strings

  /** Pieces between slashes. */
  function Split(s: string): (r: seq<string>)
    ensures |r| > 0
  {
    if s == "" then [""]
    else
      var t := Split(s[1..]);
      if s[0] == '/' then [""] + t else [[s[0]] + t[0]] + t[1..]
  }

  /** A component other than the root; `.` and repeated slashes do not count. */
  datatype Part = Up | Name(text: string)

  function PartOf(piece: string): seq<Part> {
    if piece == "" || piece == "." then [] else if piece == ".." then [Up] else [Name(piece)]
  }

  function PartsOf(pieces: seq<string>): seq<Part> {
    if pieces == [] then [] else PartOf(pieces[0]) + PartsOf(pieces[1..])
  }

  function Parts(s: string): seq<Part> { PartsOf(Split(s)) }

  predicate Absolute(s: string) { s != "" && s[0] == '/' }

  function Join(a: string, b: string): string {
    if Absolute(b) || a == "" then b
    else if a[|a| - 1] == '/' then a + b
    else a + "/" + b
  }

  /** A path as a list of components. */
  datatype Path = Path(root: bool, names: seq<string>)

  /** A name that stands for itself as a component. */
  predicate Plain(n: string) { n != "" && n != "." && n != ".." && '/' !in n }
  predicate AllPlain(ns: seq<string>) { forall i :: 0 <= i < |ns| ==> Plain(ns[i]) }

  function JoinNames(ns: seq<string>): string {
    if ns == [] then "" else if |ns| == 1 then ns[0] else ns[0] + "/" + JoinNames(ns[1..])
  }

  function Render(p: Path): string { (if p.root then "/" else "") + JoinNames(p.names) }

  // ----------------------------------------------------------- normalisation

  function Step(names: seq<string>, part: Part): seq<string> {
    if part.Name? then names + [part.text] else if names == [] then [] else names[..|names| - 1]
  }

  function Fold(names: seq<string>, parts: seq<Part>): seq<string>
    decreases |parts|
  {
    if parts == [] then names else Fold(Step(names, parts[0]), parts[1..])
  }

  /** Going through the parts from some names, `..` comes up at the top. */
  predicate Climbs(names: seq<string>, parts: seq<Part>)
    decreases |parts|
  {
    parts != [] && ((names == [] && parts[0].Up?) || Climbs(Step(names, parts[0]), parts[1..]))
  }

  /** The state directory's normal form: `..` at the top goes nowhere. */
  function Normal(s: string): Path { Path(Absolute(s), Fold([], Parts(s))) }

  /** The configuration's normal form: `..` at the top takes the root away. */
  function EngineNormal(s: string): Path {
    Path(Absolute(s) && !Climbs([], Parts(s)), Fold([], Parts(s)))
  }

  method Normalize(s: string) returns (out: Path)
    ensures out == Normal(s)
  {
    out := Path(Absolute(s), []);
    var parts := Parts(s);
    for i := 0 to |parts|
      invariant out.root == Absolute(s) && Fold(out.names, parts[i..]) == Fold([], parts)
    {
      assert parts[i..][1..] == parts[i + 1..];
      if parts[i].Up? {
        if out.names != [] {
          out := out.(names := out.names[..|out.names| - 1]);
        }
      } else {
        out := out.(names := out.names + [parts[i].text]);
      }
    }
    assert parts[|parts|..] == [];
  }

  datatype Component = RootDir | NormalDir(text: string)

  function TextOf(c: Component): string { if c.RootDir? then "/" else c.text }

  /** The component stack of the configuration's normaliser. */
  function Stack(p: Path): seq<Component> {
    (if p.root then [RootDir] else []) + seq(|p.names|, i requires 0 <= i < |p.names| => NormalDir(p.names[i]))
  }

  function Shorter(p: Path): Path {
    if p.names != [] then p.(names := p.names[..|p.names| - 1]) else p.(root := false)
  }

  lemma StackPushPop(p: Path, n: string)
    ensures Stack(p.(names := p.names + [n])) == Stack(p) + [NormalDir(n)]
    ensures Stack(p) == [] ==> p == Path(false, [])
    ensures Stack(p) != [] ==> Stack(Shorter(p)) == Stack(p)[..|Stack(p)| - 1]
  {
  }

  /** One component of the configuration's normaliser. */
  function EngineStep(p: Path, part: Part): Path {
    if part.Up? then Shorter(p) else p.(names := p.names + [part.text])
  }

  lemma EngineStepFolds(p: Path, parts: seq<Part>)
    requires parts != []
    ensures Fold(EngineStep(p, parts[0]).names, parts[1..]) == Fold(p.names, parts)
    ensures (EngineStep(p, parts[0]).root && !Climbs(EngineStep(p, parts[0]).names, parts[1..])) <==>
              (p.root && !Climbs(p.names, parts))
  {
  }

  method NormalizePath(s: string) returns (text: string)
    ensures text == Render(EngineNormal(s))
  {
    var components: seq<Component> := if Absolute(s) then [RootDir] else [];
    var parts := Parts(s);
    ghost var p := Path(Absolute(s), []);
    for i := 0 to |parts|
      invariant components == Stack(p)
      invariant Fold(p.names, parts[i..]) == Fold([], parts)
      invariant (p.root && !Climbs(p.names, parts[i..])) <==> (Absolute(s) && !Climbs([], parts))
    {
      assert parts[i..][1..] == parts[i + 1..];
      EngineStepFolds(p, parts[i..]);
      if parts[i].Up? {
        StackPushPop(p, "");
        if components != [] {
          components := components[..|components| - 1];
        }
      } else {
        StackPushPop(p, parts[i].text);
        components := components + [NormalDir(parts[i].text)];
      }
      p := EngineStep(p, parts[i]);
    }
    assert parts[|parts|..] == [];
    NormalIsPlain(s);
    PushedStack(p.root, p.names);
    text := Assemble(components);
  }

  /** Components pushed one after the other onto an empty path. */
  function Pushed(components: seq<Component>): string {
    if components == [] then "" else Join(Pushed(components[..|components| - 1]), TextOf(components[|components| - 1]))
  }

  method Assemble(components: seq<Component>) returns (text: string)
    ensures text == Pushed(components)
  {
    text := "";
    for k := 0 to |components|
      invariant text == Pushed(components[..k])
    {
      assert components[..k + 1][..k] == components[..k];
      text := Join(text, TextOf(components[k]));
    }
    assert components[..|components|] == components;
  }

  lemma PushedOne(cs: seq<Component>, c: Component)
    ensures Pushed(cs + [c]) == Join(Pushed(cs), TextOf(c))
  {
    assert (cs + [c])[..|cs|] == cs;
  }

  lemma PushedRoot(root: bool)
    ensures Pushed(Stack(Path(root, []))) == Render(Path(root, []))
  {
    if root {
      assert Stack(Path(root, [])) == [] + [RootDir];
      PushedOne([], RootDir);
    } else {
      assert Stack(Path(root, [])) == [];
    }
  }

  /** One more name, in the stack and in the text. */
  lemma PushedNext(root: bool, ns: seq<string>, n: string)
    requires AllPlain(ns) && Plain(n)
    ensures Pushed(Stack(Path(root, ns + [n]))) == Join(Pushed(Stack(Path(root, ns))), n)
    ensures Render(Path(root, ns + [n])) == Join(Render(Path(root, ns)), n)
  {
    var p := Path(root, ns);
    StackPushPop(p, n);
    PushedOne(Stack(p), NormalDir(n));
    PushName(p, n);
  }

  lemma {:induction false} PushedStack(root: bool, ns: seq<string>)
    requires AllPlain(ns)
    ensures Pushed(Stack(Path(root, ns))) == Render(Path(root, ns))
  {
    if ns == [] {
      PushedRoot(root);
    } else {
      var front, n := ns[..|ns| - 1], ns[|ns| - 1];
      assert ns == front + [n];
      PushedStack(root, front);
      PushedNext(root, front, n);
    }
  }

  lemma {:induction false} JoinNamesAppend(ns: seq<string>, n: string)
    ensures JoinNames(ns + [n]) == if ns == [] then n else JoinNames(ns) + "/" + n
  {
    if |ns| > 0 {
      assert (ns + [n])[1..] == ns[1..] + [n];
      JoinNamesAppend(ns[1..], n);
    }
  }

  lemma {:induction false} JoinNamesEnd(ns: seq<string>)
    requires AllPlain(ns) && ns != []
    ensures JoinNames(ns) != "" && JoinNames(ns)[|JoinNames(ns)| - 1] != '/' && JoinNames(ns)[0] != '/'
  {
    assert Plain(ns[0]);
    if |ns| > 1 {
      JoinNamesEnd(ns[1..]);
    }
  }

  lemma JoinPlain(a: string, n: string)
    requires Plain(n) && a != "" && a[|a| - 1] != '/'
    ensures Join(a, n) == a + "/" + n
  {
  }

  lemma PushFirst(root: bool, n: string)
    requires Plain(n)
    ensures Join(Render(Path(root, [])), n) == Render(Path(root, [n]))
  {
    assert Render(Path(root, [])) == (if root then "/" else "") + "";
  }

  lemma PushLater(root: bool, ns: seq<string>, n: string)
    requires AllPlain(ns) && ns != [] && Plain(n)
    ensures Join(Render(Path(root, ns)), n) == Render(Path(root, ns + [n]))
  {
    var front := if root then "/" else "";
    JoinNamesEnd(ns);
    JoinPlain(front + JoinNames(ns), n);
    JoinNamesAppend(ns, n);
    assert front + JoinNames(ns) + "/" + n == front + (JoinNames(ns) + "/" + n);
  }

  /** Pushing a name onto a path string. */
  lemma PushName(p: Path, n: string)
    requires AllPlain(p.names) && Plain(n)
    ensures Join(Render(p), n) == Render(p.(names := p.names + [n]))
  {
    if p.names == [] {
      PushFirst(p.root, n);
      assert p.names + [n] == [n];
    } else {
      PushLater(p.root, p.names, n);
    }
  }

  // ------------------------------------------------------------------ lemmas

  lemma {:induction false} SplitJoin(a: string, b: string)
    ensures Split(a + "/" + b) == Split(a) + Split(b)
  {
    if a == "" {
      assert (a + "/" + b)[1..] == b;
    } else {
      assert (a + "/" + b)[1..] == a[1..] + "/" + b;
      SplitJoin(a[1..], b);
    }
  }

  lemma {:induction false} PartsOfAppend(a: seq<string>, b: seq<string>)
    ensures PartsOf(a + b) == PartsOf(a) + PartsOf(b)
  {
    if a == [] {
      assert a + b == b;
    } else {
      assert (a + b)[1..] == a[1..] + b;
      PartsOfAppend(a[1..], b);
    }
  }

  lemma PartsSlash(a: string, b: string)
    ensures Parts(a + "/" + b) == Parts(a) + Parts(b)
  {
    SplitJoin(a, b);
    PartsOfAppend(Split(a), Split(b));
  }

  lemma PartsEmpty()
    ensures Parts("") == []
  {
    assert PartsOf([""]) == PartOf("") + PartsOf([""][1..]);
  }

  /** Joining path strings concatenates their components. */
  lemma PartsJoin(a: string, b: string)
    requires !Absolute(b)
    ensures Parts(Join(a, b)) == Parts(a) + Parts(b)
  {
    PartsEmpty();
    if a != "" && a[|a| - 1] == '/' {
      var c := a[..|a| - 1];
      assert a == c + "/" + "" && a + b == c + "/" + b;
      PartsSlash(c, "");
      PartsSlash(c, b);
    } else if a != "" {
      PartsSlash(a, b);
    }
  }

  lemma {:induction false} SplitNoSlash(s: string, i: nat)
    requires i < |Split(s)|
    ensures '/' !in Split(s)[i]
  {
    if s != "" {
      var t := Split(s[1..]);
      if s[0] == '/' {
        if i > 0 {
          SplitNoSlash(s[1..], i - 1);
        }
      } else {
        SplitNoSlash(s[1..], i);
        assert i > 0 ==> Split(s)[i] == t[i];
      }
    }
  }

  predicate PlainPart(q: Part) { q.Name? ==> Plain(q.text) }

  lemma {:induction false} PartsOfPlain(pieces: seq<string>)
    requires forall i :: 0 <= i < |pieces| ==> '/' !in pieces[i]
    ensures forall i :: 0 <= i < |PartsOf(pieces)| ==> PlainPart(PartsOf(pieces)[i])
  {
    if pieces != [] {
      PartsOfPlain(pieces[1..]);
    }
  }

  lemma {:induction false} FoldPlain(names: seq<string>, parts: seq<Part>)
    requires AllPlain(names) && forall i :: 0 <= i < |parts| ==> PlainPart(parts[i])
    ensures AllPlain(Fold(names, parts))
    decreases |parts|
  {
    if parts != [] {
      assert PlainPart(parts[0]);
      FoldPlain(Step(names, parts[0]), parts[1..]);
    }
  }

  /** A normal form is free of empty, `.` and `..` components. */
  lemma NormalIsPlain(s: string)
    ensures AllPlain(Normal(s).names)
  {
    forall i | 0 <= i < |Split(s)| ensures '/' !in Split(s)[i] {
      SplitNoSlash(s, i);
    }
    PartsOfPlain(Split(s));
    FoldPlain([], Parts(s));
  }

  lemma {:induction false} FoldAppend(names: seq<string>, a: seq<Part>, b: seq<Part>)
    ensures Fold(names, a + b) == Fold(Fold(names, a), b)
    ensures Climbs(names, a + b) <==> Climbs(names, a) || Climbs(Fold(names, a), b)
    decreases |a|
  {
    if a == [] {
      assert a + b == b;
    } else {
      assert (a + b)[1..] == a[1..] + b;
      FoldAppend(Step(names, a[0]), a[1..], b);
    }
  }

  function Names(ns: seq<string>): seq<Part> {
    if ns == [] then [] else [Name(ns[0])] + Names(ns[1..])
  }

  lemma FoldName(names: seq<string>, n: string, rest: seq<Part>)
    ensures Fold(names, [Name(n)] + rest) == Fold(names + [n], rest)
  {
    assert ([Name(n)] + rest)[1..] == rest;
  }

  lemma {:induction false} FoldNames(names: seq<string>, ns: seq<string>)
    ensures Fold(names, Names(ns)) == names + ns
    decreases |ns|
  {
    if ns == [] {
      assert names + ns == names;
    } else {
      FoldNames(names + [ns[0]], ns[1..]);
      FoldName(names, ns[0], Names(ns[1..]));
      assert names + [ns[0]] + ns[1..] == names + ns;
    }
  }

  lemma {:induction false} NamesDontClimb(names: seq<string>, ns: seq<string>)
    ensures !Climbs(names, Names(ns))
    decreases |ns|
  {
    if ns != [] {
      NamesDontClimb(names + [ns[0]], ns[1..]);
      assert Names(ns)[1..] == Names(ns[1..]);
    }
  }

  lemma {:induction false} SplitPlain(n: string)
    requires '/' !in n
    ensures Split(n) == [n]
  {
    if n != "" {
      SplitPlain(n[1..]);
      assert [n[0]] + n[1..] == n;
    }
  }

  lemma PartsName(n: string)
    requires Plain(n)
    ensures Parts(n) == [Name(n)]
  {
    SplitPlain(n);
    assert PartsOf([n]) == PartOf(n) + PartsOf([n][1..]);
  }

  lemma {:induction false} PartsJoinNames(ns: seq<string>)
    requires AllPlain(ns)
    ensures Parts(JoinNames(ns)) == Names(ns)
  {
    PartsEmpty();
    if ns != [] {
      PartsName(ns[0]);
      PartsJoinNames(ns[1..]);
      if |ns| > 1 {
        PartsSlash(ns[0], JoinNames(ns[1..]));
      }
    }
  }

  lemma RenderParts(p: Path)
    requires AllPlain(p.names)
    ensures Parts(Render(p)) == Names(p.names)
  {
    PartsJoinNames(p.names);
    if p.root {
      PartsEmpty();
      assert Render(p) == "" + "/" + JoinNames(p.names);
      PartsSlash("", JoinNames(p.names));
    } else {
      assert Render(p) == JoinNames(p.names);
    }
  }

  lemma RenderAbsolute(p: Path)
    requires AllPlain(p.names)
    ensures Absolute(Render(p)) == p.root
  {
    if p.names != [] {
      JoinNamesEnd(p.names);
    }
  }

  /** Reading back what was written. */
  lemma RenderRoundTrip(p: Path)
    requires AllPlain(p.names)
    ensures Parts(Render(p)) == Names(p.names) && Absolute(Render(p)) == p.root
    ensures Normal(Render(p)) == p && EngineNormal(Render(p)) == p
  {
    RenderParts(p);
    RenderAbsolute(p);
    FoldNames([], p.names);
    NamesDontClimb([], p.names);
  }

  /** Normalising is idempotent. */
  lemma NormalIdempotent(s: string)
    ensures Normal(Render(Normal(s))) == Normal(s)
  {
    NormalIsPlain(s);
    RenderRoundTrip(Normal(s));
  }

  lemma NormalOfJoin(a: string, b: string)
    requires a != "" && !Absolute(b)
    ensures Normal(Join(a, b)) == Path(Absolute(a), Fold(Normal(a).names, Parts(b)))
  {
    PartsJoin(a, b);
    FoldAppend([], Parts(a), Parts(b));
  }

  /** A directory may be normalised before or after something is joined to it. */
  lemma NormalJoin(a: string, b: string)
    ensures Normal(Join(Render(Normal(a)), b)) == Normal(Join(a, b))
  {
    var n := Normal(a);
    NormalIsPlain(a);
    RenderRoundTrip(n);
    if !Absolute(b) {
      if a != "" {
        NormalOfJoin(a, b);
      }
      if Render(n) != "" {
        NormalOfJoin(Render(n), b);
      } else {
        assert n.names == [] by { if n.names != [] { JoinNamesEnd(n.names); } }
      }
      if a == "" {
        PartsEmpty();
      }
    }
  }

  // -------------------------------------------------------------- resolution

  predicate IsSpace(c: char) {
    c in {' ', '\t', '\n', '\r', '\U{0B}', '\U{0C}', '\U{85}', '\U{A0}', '\U{1680}', '\U{2028}', '\U{2029}',
          '\U{202F}', '\U{205F}', '\U{3000}'} || '\U{2000}' <= c <= '\U{200A}'
  }

  function TrimStart(s: string): string { if s != "" && IsSpace(s[0]) then TrimStart(s[1..]) else s }

  function TrimEnd(s: string): string {
    if s != "" && IsSpace(s[|s| - 1]) then TrimEnd(s[..|s| - 1]) else s
  }

  function Trim(s: string): string { TrimEnd(TrimStart(s)) }

  predicate HasPlaceholder(s: string) { exists i :: 0 <= i < |s| - 1 && s[i] == '$' && s[i + 1] == '{' }

  datatype Outcome = Accepted(path: string) | Placeholder | IsWorkRoot | IsAncestor | NoCurrentDir

  /** Component-wise prefix. */
  predicate StartsWith(p: Path, q: Path) {
    if q.root == p.root then q.names <= p.names else !q.root && q.names == []
  }

  function Absolutize(workRoot: string, cwd: Option<string>): Option<Path> {
    if Absolute(workRoot) then Some(Normal(workRoot))
    else if cwd.None? then None
    else Some(Normal(Join(cwd.value, workRoot)))
  }

  function Candidate(root: Path, raw: string): Path {
    Normal(if Absolute(raw) then raw else Join(Render(root), raw))
  }

  /** Refuses the work root and everything above it. */
  function Guarded(root: Path, path: Path): Outcome {
    if path == root then IsWorkRoot
    else if StartsWith(root, path) then IsAncestor
    else Accepted(Render(path))
  }

  function Resolve(workRoot: string, cwd: Option<string>, value: string): Outcome {
    var raw := Trim(value);
    if raw == "" then Accepted(Join(workRoot, ".run"))
    else if HasPlaceholder(raw) then Placeholder
    else
      var root := Absolutize(workRoot, cwd);
      if root.None? then NoCurrentDir else Guarded(root.value, Candidate(root.value, raw))
  }

  /** The configuration's own resolution, applied to the value first. */
  function ResolveEnginePath(value: string, workRoot: string): string {
    if Absolute(value) then value else Render(EngineNormal(Join(workRoot, value)))
  }

  /**
   * The guard: a configured directory is accepted exactly if it is neither the work root nor above it,
   * and then it is written as an absolute path without `.` and `..`.
   */
  lemma AcceptedIff(workRoot: string, cwd: Option<string>, value: string, root: Path)
    requires Absolutize(workRoot, cwd) == Some(root) && root.root
    requires Trim(value) != "" && !HasPlaceholder(Trim(value))
    ensures var path := Candidate(root, Trim(value));
            && (Resolve(workRoot, cwd, value).Accepted? <==> !(path.names <= root.names))
            && (Resolve(workRoot, cwd, value).Accepted? ==>
                  && Resolve(workRoot, cwd, value).path == Render(path)
                  && Absolute(Render(path)) && AllPlain(path.names) && Normal(Render(path)) == path)
  {
    var raw := Trim(value);
    NormalIsPlain(if Absolute(workRoot) then workRoot else Join(cwd.value, workRoot));
    RenderRoundTrip(root);
    var path := Candidate(root, raw);
    NormalIsPlain(if Absolute(raw) then raw else Join(Render(root), raw));
    RenderRoundTrip(path);
  }

  /** A relative work root is found by walking from the current directory. */
  lemma AbsolutizeIs(workRoot: string, cwd: string)
    requires !Absolute(workRoot) && workRoot != "" && Absolute(cwd)
    ensures Absolutize(workRoot, Some(cwd)) == Some(Path(true, Fold(Normal(cwd).names, Parts(workRoot))))
  {
    NormalOfJoin(cwd, workRoot);
  }

  /** What is refused before any path is looked at; a blank value is the default below the work root. */
  lemma RefusedEarlyIff(workRoot: string, cwd: Option<string>, value: string)
    ensures var raw, r := Trim(value), Resolve(workRoot, cwd, value);
            && (raw == "" ==> r == Accepted(Join(workRoot, ".run")))
            && (r.Placeholder? <==> HasPlaceholder(raw))
            && (r.NoCurrentDir? <==> raw != "" && !HasPlaceholder(raw) && !Absolute(workRoot) && cwd.None?)
  {
  }

  /** The work root and what lies above it are refused, each with its own reason. */
  lemma RefusedIff(workRoot: string, cwd: Option<string>, value: string, root: Path)
    requires Absolutize(workRoot, cwd) == Some(root) && root.root && Trim(value) != "" && !HasPlaceholder(Trim(value))
    ensures var path, r := Candidate(root, Trim(value)), Resolve(workRoot, cwd, value);
            && (r.IsWorkRoot? <==> path.names == root.names)
            && (r.IsAncestor? <==> path.names < root.names)
  {
    NormalIsPlain(if Absolute(workRoot) then workRoot else Join(cwd.value, workRoot));
    RenderRoundTrip(root);
  }

  /** Managed directories under the work root. */
  function ManagedDirs(root: Path, managed: seq<string>): (dirs: seq<Path>)
    ensures |dirs| == |managed|
  {
    seq(|managed|, i requires 0 <= i < |managed| => Normal(Join(Render(root), managed[i])))
  }

  /** Where a managed directory is: walked to from the work root, unless it is absolute. */
  lemma ManagedAt(root: Path, managed: seq<string>, i: nat)
    requires root.root && AllPlain(root.names) && i < |managed| && managed[i] != ""
    ensures ManagedDirs(root, managed)[i] ==
              Path(true, Fold(if Absolute(managed[i]) then [] else root.names, Parts(managed[i])))
  {
    if !Absolute(managed[i]) {
      NormalOfJoin(Render(root), managed[i]);
      RenderRoundTrip(root);
    }
  }

  predicate OutsideAll(path: Path, dirs: seq<Path>) {
    dirs == [] || (OutsideAll(path, dirs[..|dirs| - 1]) && !StartsWith(path, dirs[|dirs| - 1]))
  }

  lemma {:induction false} OutsideEach(path: Path, dirs: seq<Path>)
    ensures OutsideAll(path, dirs) <==> forall i :: 0 <= i < |dirs| ==> !StartsWith(path, dirs[i])
  {
    if dirs != [] {
      var n := |dirs| - 1;
      OutsideEach(path, dirs[..n]);
      assert forall i :: 0 <= i < n ==> dirs[..n][i] == dirs[i];
    }
  }

  /** Rejects a directory that is a managed one or lies below one. */
  method RejectInside(path: Path, root: Path, managed: seq<string>) returns (ok: bool)
    ensures var dirs := ManagedDirs(root, managed);
            ok <==> forall i :: 0 <= i < |dirs| ==> !StartsWith(path, dirs[i])
  {
    ok := IsOutside(path, root, managed);
    OutsideEach(path, ManagedDirs(root, managed));
  }

  lemma OutsideNext(path: Path, dirs: seq<Path>, i: nat)
    requires i < |dirs|
    ensures OutsideAll(path, dirs[..i + 1]) <==> OutsideAll(path, dirs[..i]) && !StartsWith(path, dirs[i])
  {
    assert dirs[..i + 1][..i] == dirs[..i];
  }

  method IsOutside(path: Path, root: Path, managed: seq<string>) returns (ok: bool)
    ensures ok <==> OutsideAll(path, ManagedDirs(root, managed))
  {
    ghost var dirs := ManagedDirs(root, managed);
    ok := true;
    for i := 0 to |managed|
      invariant OutsideAll(path, dirs[..i])
    {
      var dir := Normalize(Join(Render(root), managed[i]));
      OutsideNext(path, dirs, i);
      if StartsWith(path, dir) {
        StillInside(path, dirs, i + 1);
        return false;
      }
    }
    assert dirs[..|managed|] == dirs;
  }

  lemma StillInside(path: Path, dirs: seq<Path>, k: nat)
    requires k <= |dirs| && !OutsideAll(path, dirs[..k])
    ensures !OutsideAll(path, dirs)
  {
    OutsideEach(path, dirs);
    OutsideEach(path, dirs[..k]);
  }

  // ------------------------------------------------- resolving in two stages

  lemma TrimFixed(s: string)
    requires s != "" && !IsSpace(s[0]) && !IsSpace(s[|s| - 1])
    ensures Trim(s) == s
  {
  }

  lemma {:induction false} TrimStartPlaceholder(s: string)
    ensures HasPlaceholder(TrimStart(s)) <==> HasPlaceholder(s)
  {
    if s != "" && IsSpace(s[0]) {
      TrimStartPlaceholder(s[1..]);
      assert forall i :: 0 < i < |s| ==> s[i] == s[1..][i - 1];
      if HasPlaceholder(s) {
        var i :| 0 <= i < |s| - 1 && s[i] == '$' && s[i + 1] == '{';
        assert s[1..][i - 1] == '$' && s[1..][i - 1 + 1] == '{';
      }
      if HasPlaceholder(s[1..]) {
        var i :| 0 <= i < |s[1..]| - 1 && s[1..][i] == '$' && s[1..][i + 1] == '{';
        assert s[i + 1] == '$' && s[i + 1 + 1] == '{';
      }
    }
  }

  lemma {:induction false} TrimEndPlaceholder(s: string)
    ensures HasPlaceholder(TrimEnd(s)) <==> HasPlaceholder(s)
  {
    var n := |s| - 1;
    if s != "" && IsSpace(s[n]) {
      TrimEndPlaceholder(s[..n]);
      assert forall i :: 0 <= i < n ==> s[i] == s[..n][i];
      if HasPlaceholder(s) {
        var i :| 0 <= i < |s| - 1 && s[i] == '$' && s[i + 1] == '{';
        assert s[..n][i] == '$' && s[..n][i + 1] == '{';
      }
      if HasPlaceholder(s[..n]) {
        var i :| 0 <= i < |s[..n]| - 1 && s[..n][i] == '$' && s[..n][i + 1] == '{';
        assert s[i] == '$' && s[i + 1] == '{';
      }
    }
  }

  /** Trimming neither makes nor removes a placeholder. */
  lemma TrimPlaceholder(s: string)
    ensures HasPlaceholder(Trim(s)) <==> HasPlaceholder(s)
  {
    TrimStartPlaceholder(s);
    TrimEndPlaceholder(TrimStart(s));
  }

  /** The directory a trimmed value names, as text. */
  function Place(workRoot: string, raw: string): string {
    if raw == "" then Join(workRoot, ".run") else Render(Candidate(Normal(workRoot), raw))
  }

  /** A trimmed value that names a directory strictly above the work root. */
  predicate Above(workRoot: string, raw: string) {
    raw != "" && Candidate(Normal(workRoot), raw).names < Normal(workRoot).names
  }

  /** Both texts hold a placeholder, or neither does and they name one place or two refused alike. */
  predicate SameFate(workRoot: string, raw: string, via: string) {
    if HasPlaceholder(raw) || HasPlaceholder(via) then HasPlaceholder(raw) && HasPlaceholder(via)
    else Place(workRoot, raw) == Place(workRoot, via) || (Above(workRoot, raw) && Above(workRoot, via))
  }

  lemma CandidateFacts(workRoot: string, raw: string)
    requires Absolute(workRoot)
    ensures var root, p := Normal(workRoot), Candidate(Normal(workRoot), raw);
            root.root && p.root && AllPlain(root.names) && AllPlain(p.names) && Normal(Render(p)) == p
  {
    NormalIsPlain(workRoot);
    RenderRoundTrip(Normal(workRoot));
    NormalIsPlain(if Absolute(raw) then raw else Join(Render(Normal(workRoot)), raw));
    RenderRoundTrip(Candidate(Normal(workRoot), raw));
  }

  lemma DefaultPlace(workRoot: string)
    requires Absolute(workRoot)
    ensures Normal(Join(workRoot, ".run")) == Path(true, Normal(workRoot).names + [".run"])
  {
    NormalOfJoin(workRoot, ".run");
    PartsName(".run");
    FoldNames(Normal(workRoot).names, [".run"]);
    assert Names([".run"]) == [Name(".run")];
  }

  lemma GuardedSame(root: Path, p: Path, q: Path)
    requires root.root && p.root && q.root && Normal(Render(p)) == p && Normal(Render(q)) == q
    ensures Guarded(root, p) == Guarded(root, q) <==>
              Render(p) == Render(q) || (p.names < root.names && q.names < root.names)
  {
  }

  /** The default directory is matched only by a value that names it. */
  lemma GuardedDefault(workRoot: string, raw: string)
    requires Absolute(workRoot) && raw != ""
    ensures Guarded(Normal(workRoot), Candidate(Normal(workRoot), raw)) == Accepted(Join(workRoot, ".run")) <==>
              Place(workRoot, raw) == Join(workRoot, ".run")
  {
    CandidateFacts(workRoot, raw);
    DefaultPlace(workRoot);
    var root, p := Normal(workRoot), Candidate(Normal(workRoot), raw);
    if Render(p) == Join(workRoot, ".run") {
      assert |p.names| == |root.names| + 1;
    }
  }

  /** The answer for an absolute work root depends on the trimmed text alone. */
  function Answer(workRoot: string, raw: string): Outcome {
    if raw == "" then Accepted(Join(workRoot, ".run"))
    else if HasPlaceholder(raw) then Placeholder
    else Guarded(Normal(workRoot), Candidate(Normal(workRoot), raw))
  }

  lemma AnswerIs(workRoot: string, cwd: Option<string>, value: string)
    requires Absolute(workRoot)
    ensures Resolve(workRoot, cwd, value) == Answer(workRoot, Trim(value))
  {
  }

  lemma DefaultFate(workRoot: string, raw: string)
    requires Absolute(workRoot) && raw != ""
    ensures Answer(workRoot, raw) == Answer(workRoot, "") <==> SameFate(workRoot, raw, "")
  {
    GuardedDefault(workRoot, raw);
  }

  /** Only a value with a placeholder gets that answer. */
  lemma PlaceholderAnswer(workRoot: string, raw: string)
    requires raw != ""
    ensures Answer(workRoot, raw).Placeholder? <==> HasPlaceholder(raw)
    ensures !HasPlaceholder(raw) ==> Answer(workRoot, raw) == Guarded(Normal(workRoot), Candidate(Normal(workRoot), raw))
  {
  }

  lemma PlainFate(workRoot: string, raw: string, via: string)
    requires Absolute(workRoot) && raw != "" && via != ""
    ensures var root := Normal(workRoot);
            Guarded(root, Candidate(root, raw)) == Guarded(root, Candidate(root, via)) <==>
              Place(workRoot, raw) == Place(workRoot, via) || (Above(workRoot, raw) && Above(workRoot, via))
  {
    CandidateFacts(workRoot, raw);
    CandidateFacts(workRoot, via);
    GuardedSame(Normal(workRoot), Candidate(Normal(workRoot), raw), Candidate(Normal(workRoot), via));
  }

  lemma NamedFate(workRoot: string, raw: string, via: string)
    requires Absolute(workRoot) && raw != "" && via != ""
    ensures Answer(workRoot, raw) == Answer(workRoot, via) <==> SameFate(workRoot, raw, via)
  {
    PlaceholderAnswer(workRoot, raw);
    PlaceholderAnswer(workRoot, via);
    PlainFate(workRoot, raw, via);
  }

  lemma FateDecides(workRoot: string, raw: string, via: string)
    requires Absolute(workRoot) && raw != ""
    ensures Answer(workRoot, raw) == Answer(workRoot, via) <==> SameFate(workRoot, raw, via)
  {
    if via == "" {
      DefaultFate(workRoot, raw);
    } else {
      NamedFate(workRoot, raw, via);
    }
  }

  /**
   * Resolving the value as the configuration does first, for every value that is not blank: the
   * answer is the same exactly if the two trimmed texts meet the same fate.
   */
  lemma TwoStagesIff(workRoot: string, cwd: Option<string>, value: string)
    requires Absolute(workRoot) && Trim(value) != ""
    ensures Resolve(workRoot, cwd, ResolveEnginePath(value, workRoot)) == Resolve(workRoot, cwd, value) <==>
              SameFate(workRoot, Trim(value), Trim(ResolveEnginePath(value, workRoot)))
  {
    AnswerIs(workRoot, cwd, value);
    AnswerIs(workRoot, cwd, ResolveEnginePath(value, workRoot));
    FateDecides(workRoot, Trim(value), Trim(ResolveEnginePath(value, workRoot)));
  }

  // ----------------------------------------- the guards, for a value without blanks around it

  /** Length of the names of a path, each with its slash. */
  function Weight(ns: seq<string>): nat {
    if ns == [] then 0 else Weight(ns[..|ns| - 1]) + |ns[|ns| - 1]| + 1
  }

  function PartWeight(parts: seq<Part>): nat {
    if parts == [] then 0 else (if parts[0].Name? then |parts[0].text| + 1 else 0) + PartWeight(parts[1..])
  }

  function PieceWeight(pieces: seq<string>): nat {
    if pieces == [] then 0 else |pieces[0]| + 1 + PieceWeight(pieces[1..])
  }

  lemma {:induction false} SplitWeight(s: string)
    ensures PieceWeight(Split(s)) == |s| + 1
  {
    if s != "" {
      SplitWeight(s[1..]);
      var t := Split(s[1..]);
      if s[0] == '/' {
        assert ([""] + t)[1..] == t;
      } else {
        assert Split(s)[1..] == t[1..];
      }
    }
  }

  lemma {:induction false} PartsWeight(pieces: seq<string>)
    ensures PartWeight(PartsOf(pieces)) <= PieceWeight(pieces)
  {
    if pieces != [] {
      PartsWeight(pieces[1..]);
      var p := PartOf(pieces[0]);
      if p == [] {
        assert PartsOf(pieces) == PartsOf(pieces[1..]);
      } else {
        assert (p + PartsOf(pieces[1..]))[1..] == PartsOf(pieces[1..]);
      }
    }
  }

  lemma {:induction false} FoldWeight(names: seq<string>, parts: seq<Part>)
    ensures Weight(Fold(names, parts)) <= Weight(names) + PartWeight(parts)
    decreases |parts|
  {
    if parts != [] {
      FoldWeight(Step(names, parts[0]), parts[1..]);
      if parts[0].Name? {
        assert (names + [parts[0].text])[..|names|] == names;
      }
    }
  }

  lemma {:induction false} RenderLength(ns: seq<string>)
    ensures |Render(Path(true, ns))| == if ns == [] then 1 else Weight(ns)
  {
    if ns != [] {
      var front, n := ns[..|ns| - 1], ns[|ns| - 1];
      RenderLength(front);
      JoinNamesAppend(front, n);
      assert front + [n] == ns;
    }
  }

  /** Normalising an absolute path never lengthens it. */
  lemma NormalNotLonger(s: string)
    requires Absolute(s)
    ensures |Render(Normal(s))| <= |s|
  {
    SplitWeight(s);
    assert Split(s)[0] == "";
    assert Parts(s) == PartsOf(Split(s)[1..]);
    PartsWeight(Split(s)[1..]);
    FoldWeight([], Parts(s));
    RenderLength(Normal(s).names);
  }

  lemma {:induction false} TrimEndShortens(s: string)
    ensures TrimEnd(s) <= s
  {
    if s != "" && IsSpace(s[|s| - 1]) {
      TrimEndShortens(s[..|s| - 1]);
    }
  }

  /** An absolute path whose last name ends in a blank is another place once it is trimmed. */
  lemma BlankEndMoves(workRoot: string, d: Path)
    requires Absolute(workRoot) && d.root && AllPlain(d.names) && Trim(Render(d)) != Render(d)
    ensures Trim(Render(d)) != "" && Place(workRoot, Trim(Render(d))) != Render(d)
  {
    var text := Render(d);
    RenderRoundTrip(d);
    assert TrimStart(text) == text;
    TrimEndShortens(text);
    AbsoluteTrim(text);
    NormalNotLonger(Trim(text));
  }

  lemma AbsoluteTrim(s: string)
    requires Absolute(s)
    ensures Absolute(Trim(s))
  {
    TrimEndKeepsSlash(s);
  }

  lemma {:induction false} TrimEndKeepsSlash(s: string)
    requires Absolute(s)
    ensures Absolute(TrimEnd(s))
  {
    if IsSpace(s[|s| - 1]) {
      TrimEndKeepsSlash(s[..|s| - 1]);
    }
  }

  /** What the two resolutions work with. */
  lemma JoinedFacts(workRoot: string, value: string)
    requires Absolute(workRoot) && !Absolute(value)
    ensures var d := Normal(Join(workRoot, value));
            && d.root && AllPlain(d.names) && Candidate(Normal(workRoot), value) == d
            && d.names == Fold(Normal(workRoot).names, Parts(value))
            && ResolveEnginePath(value, workRoot) == Render(Path(!Climbs([], Parts(workRoot) + Parts(value)), d.names))
  {
    NormalOfJoin(workRoot, value);
    NormalJoin(workRoot, value);
    PartsJoin(workRoot, value);
    NormalIsPlain(Join(workRoot, value));
  }

  /** One that lost its root ends up below the work root, whatever it meant. */
  lemma ClimbedIntoRoot(workRoot: string, names: seq<string>)
    requires Absolute(workRoot) && AllPlain(names) && names != []
    ensures Place(workRoot, Render(Path(false, names))) == Render(Path(true, Normal(workRoot).names + names))
    ensures !Above(workRoot, Render(Path(false, names)))
  {
    var root, p := Normal(workRoot), Path(false, names);
    RenderRoundTrip(p);
    JoinNamesEnd(names);
    NormalIsPlain(workRoot);
    RenderRoundTrip(root);
    NormalOfJoin(Render(root), Render(p));
    FoldNames(root.names, names);
    assert Candidate(root, Render(p)) == Path(true, root.names + names);
  }

  lemma RenderInjective(p: Path, q: Path)
    requires AllPlain(p.names) && AllPlain(q.names)
    ensures Render(p) == Render(q) <==> p == q
  {
    RenderRoundTrip(p);
    RenderRoundTrip(q);
  }

  /** The joined path never climbs above the root, or nothing lies between it and the work root. */
  predicate StaysBelowRoot(workRoot: string, value: string) {
    var root := Normal(workRoot).names;
    !Climbs([], Parts(workRoot) + Parts(value)) || (root == [] && Fold(root, Parts(value)) != [])
  }

  lemma NoClimbFate(workRoot: string, value: string, via: string)
    requires Absolute(workRoot) && !Absolute(value) && value != "" && via == ResolveEnginePath(value, workRoot)
    requires !Climbs([], Parts(workRoot) + Parts(value))
    ensures Place(workRoot, via) == Place(workRoot, value) && via == Place(workRoot, value)
  {
    JoinedFacts(workRoot, value);
    RenderRoundTrip(Normal(Join(workRoot, value)));
  }

  lemma ClimbFate(workRoot: string, value: string, via: string)
    requires Absolute(workRoot) && !Absolute(value) && value != "" && via == ResolveEnginePath(value, workRoot)
    requires Climbs([], Parts(workRoot) + Parts(value)) && !HasPlaceholder(value) && !HasPlaceholder(via)
    ensures SameFate(workRoot, value, via) <==> StaysBelowRoot(workRoot, value)
  {
    JoinedFacts(workRoot, value);
    CandidateFacts(workRoot, value);
    var root, d := Normal(workRoot), Normal(Join(workRoot, value));
    if d.names == [] {
      assert via == "";
      DefaultPlace(workRoot);
      RenderRoundTrip(d);
    } else {
      ClimbedIntoRoot(workRoot, d.names);
      RenderInjective(Path(true, root.names + d.names), d);
      assert root.names + d.names == d.names <==> root.names == [];
    }
  }

  /**
   * The guards, for a value without blanks around it.  An absolute value is left alone.  Otherwise both
   * stages must see a placeholder, or neither; and the joined path must not climb above the root.  If the
   * configuration's text ends or begins in a blank, the second stage cuts it and the answers agree only
   * if the place is the same all the same, or both are refused as lying above the work root.
   */
  predicate StagesAgree(workRoot: string, value: string) {
    var via := ResolveEnginePath(value, workRoot);
    Absolute(value) ||
    if HasPlaceholder(value) || HasPlaceholder(via) then HasPlaceholder(value) && HasPlaceholder(via)
    else if Trim(via) == via then StaysBelowRoot(workRoot, value)
    else if !Climbs([], Parts(workRoot) + Parts(value)) then Above(workRoot, value) && Above(workRoot, Trim(via))
    else SameFate(workRoot, value, Trim(via))
  }

  lemma TrimmedFate(workRoot: string, value: string)
    requires Absolute(workRoot) && value != "" && !Absolute(value)
    requires !HasPlaceholder(value) && !HasPlaceholder(ResolveEnginePath(value, workRoot))
    ensures SameFate(workRoot, value, Trim(ResolveEnginePath(value, workRoot))) <==> StagesAgree(workRoot, value)
  {
    var via := ResolveEnginePath(value, workRoot);
    TrimPlaceholder(via);
    if Climbs([], Parts(workRoot) + Parts(value)) {
      if Trim(via) == via {
        ClimbFate(workRoot, value, via);
      }
    } else {
      NoClimbFate(workRoot, value, via);
      if Trim(via) != via {
        JoinedFacts(workRoot, value);
        BlankEndMoves(workRoot, Normal(Join(workRoot, value)));
      }
    }
  }

  /** For every value without blanks around it, in terms of the guards. */
  lemma TrimmedStagesIff(workRoot: string, cwd: Option<string>, value: string)
    requires Absolute(workRoot) && value != "" && Trim(value) == value
    ensures Resolve(workRoot, cwd, ResolveEnginePath(value, workRoot)) == Resolve(workRoot, cwd, value) <==>
              StagesAgree(workRoot, value)
  {
    TwoStagesIff(workRoot, cwd, value);
    if !Absolute(value) {
      var via := ResolveEnginePath(value, workRoot);
      TrimPlaceholder(via);
      if !HasPlaceholder(value) && !HasPlaceholder(via) {
        TrimmedFate(workRoot, value);
      }
    }
  }
}
