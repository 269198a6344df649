/**
 * Where the two resolutions of a state directory part: one family of inputs for each guard of
 * `StateDir.StagesAgree`, and for blanks around the value.
 */
module StateDirCases {
  import opened Common
  import opened StateDir

  /** A work root of one plain name. */
  lemma OneName(n: string)
    requires Plain(n)
    ensures Absolute("/" + n) && Parts("/" + n) == [Name(n)] && Normal("/" + n) == Path(true, [n])
    ensures Render(Path(true, [n])) == "/" + n
  {
    assert "/" + n == "" + "/" + n;
    PartsSlash("", n);
    PartsEmpty();
    PartsName(n);
    assert Fold([], [Name(n)]) == Fold([n], [Name(n)][1..]) == [n];
  }

  /** The texts the two resolutions see below such a work root. */
  lemma Texts(n: string, value: string, parts: seq<Part>)
    requires Plain(n) && !Absolute(value) && Parts(value) == parts
    ensures Candidate(Normal("/" + n), value) == Path(true, Fold([n], parts))
    ensures ResolveEnginePath(value, "/" + n) == Render(Path(!Climbs([n], parts), Fold([n], parts)))
    ensures AllPlain(Fold([n], parts))
  {
    OneName(n);
    JoinedFacts("/" + n, value);
    FoldAppend([], [Name(n)], parts);
    assert Fold([], [Name(n)]) == Fold([n], [Name(n)][1..]) == [n];
    assert !Climbs([], [Name(n)]) by { assert !Climbs([n], [Name(n)][1..]); }
  }

  /** A name that trimming and placeholder checks leave alone. */
  predicate Clean(n: string) {
    Plain(n) && !IsSpace(n[0]) && !IsSpace(n[|n| - 1]) && !HasPlaceholder(n)
  }

  lemma PlaceholderSlash(a: string, b: string)
    ensures HasPlaceholder(a + "/" + b) <==> HasPlaceholder(a) || HasPlaceholder(b)
  {
    var s := a + "/" + b;
    if i :| 0 <= i < |a| - 1 && a[i] == '$' && a[i + 1] == '{' {
      assert s[i] == '$' && s[i + 1] == '{';
    }
    if i :| 0 <= i < |b| - 1 && b[i] == '$' && b[i + 1] == '{' {
      assert s[|a| + 1 + i] == '$' && s[|a| + 1 + i + 1] == '{';
    }
    if i :| 0 <= i < |s| - 1 && s[i] == '$' && s[i + 1] == '{' {
      if i < |a| {
        assert a[i] == '$' && a[i + 1] == '{';
      } else {
        assert b[i - |a| - 1] == '$' && b[i - |a| - 1 + 1] == '{';
      }
    }
  }

  lemma TwoNames(a: string, b: string)
    ensures Render(Path(true, [a, b])) == "/" + a + "/" + b
    ensures HasPlaceholder(Render(Path(true, [a, b]))) <==> HasPlaceholder(a) || HasPlaceholder(b)
  {
    assert [a, b][1..] == [b];
    assert JoinNames([a, b]) == a + "/" + JoinNames([b]);
    assert "/" + (a + "/" + b) == "/" + a + "/" + b;
    assert "/" + a == "" + "/" + a;
    PlaceholderSlash("", a);
    PlaceholderSlash("/" + a, b);
  }

  /** The direct answer, once the candidate is known. */
  lemma DirectIs(w: string, cwd: Option<string>, value: string, raw: string, d: seq<string>)
    requires Plain(w) && Trim(value) == raw && raw != "" && !HasPlaceholder(raw)
    requires Candidate(Normal("/" + w), raw) == Path(true, d) && !(d <= [w])
    ensures Resolve("/" + w, cwd, value) == Accepted(Render(Path(true, d)))
  {
    OneName(w);
  }

  /** The two-stage answer, once the first stage's text is known and what trimming leaves of it. */
  lemma ViaIs(w: string, cwd: Option<string>, via: string, cut: seq<string>)
    requires Plain(w) && AllPlain(cut) && !(cut <= [w])
    requires Trim(via) == Render(Path(true, cut)) && !HasPlaceholder(Render(Path(true, cut)))
    ensures Resolve("/" + w, cwd, via) == Accepted(Render(Path(true, cut)))
  {
    OneName(w);
    RenderRoundTrip(Path(true, cut));
  }

  lemma OnePart(w: string, n: string)
    ensures Fold([w], [Name(n)]) == [w, n] && !Climbs([w], [Name(n)])
  {
    assert [Name(n)][1..] == [];
    assert Fold([w, n], []) == [w, n] && !Climbs([w, n], []);
    assert [w] + [n] == [w, n];
  }

  /** A text that is trimmed to one name. */
  lemma NameDirect(w: string, cwd: Option<string>, value: string, n: string)
    requires Plain(w) && Plain(n) && Trim(value) == n && !HasPlaceholder(n)
    ensures Resolve("/" + w, cwd, value) == Accepted("/" + w + "/" + n)
  {
    PartsName(n);
    OnePart(w, n);
    Texts(w, n, [Name(n)]);
    TwoNames(w, n);
    DirectIs(w, cwd, value, n, [w, n]);
  }

  /** The first stage on a value of one name. */
  lemma NameVia(w: string, value: string, b: string)
    requires Plain(w) && !Absolute(value) && Parts(value) == [Name(b)]
    ensures ResolveEnginePath(value, "/" + w) == "/" + w + "/" + b
  {
    OnePart(w, b);
    Texts(w, value, [Name(b)]);
    TwoNames(w, b);
  }

  /** A text that is trimmed to a full path of two names. */
  lemma FullDirect(w: string, cwd: Option<string>, via: string, n: string)
    requires Plain(w) && Plain(n) && Trim(via) == "/" + w + "/" + n && !HasPlaceholder(w) && !HasPlaceholder(n)
    ensures Resolve("/" + w, cwd, via) == Accepted("/" + w + "/" + n)
  {
    TwoNames(w, n);
    ViaIs(w, cwd, via, [w, n]);
  }

  lemma FullText(w: string, n: string)
    requires n != "" && !IsSpace(n[|n| - 1])
    ensures var s := "/" + w + "/" + n;
            Trim(s) == s && (HasPlaceholder(s) <==> HasPlaceholder(w) || HasPlaceholder(n))
  {
    TrimFixed("/" + w + "/" + n);
    TwoNames(w, n);
  }

  lemma BlankBehind(n: string)
    requires Clean(n)
    ensures Plain(n + " ") && !HasPlaceholder(n + " ")
  {
    var b := n + " ";
    assert b[|n|] == ' ';
    forall i | 0 <= i < |b| - 1 ensures !(b[i] == '$' && b[i + 1] == '{') {
      if i + 1 < |n| {
        assert b[i] == n[i] && b[i + 1] == n[i + 1];
      }
    }
  }

  lemma BlankInFront(n: string)
    requires Clean(n)
    ensures Plain(" " + n) && !HasPlaceholder(" " + n) && Trim(" " + n) == n
  {
    var b := " " + n;
    assert b[0] == ' ' && b[1..] == n;
    assert TrimStart(b) == TrimStart(n) == n;
    forall i | 0 <= i < |b| - 1 ensures !(b[i] == '$' && b[i + 1] == '{') {
      if i > 0 {
        assert b[i] == n[i - 1] && b[i + 1] == n[i];
      }
    }
  }

  lemma TrimOneBlank(s: string)
    requires s != "" && !IsSpace(s[0]) && !IsSpace(s[|s| - 1])
    ensures Trim(s + " ") == s
  {
    var b := s + " ";
    assert b[0] == s[0] && b[|b| - 1] == ' ' && b[..|b| - 1] == s;
    assert TrimStart(b) == b;
    assert TrimEnd(b) == TrimEnd(s) == s;
  }

  lemma BlankDotParts(n: string)
    requires Clean(n)
    ensures var value := n + " /.";
            && Parts(value) == [Name(n + " ")] && Trim(value) == value && !Absolute(value) && !HasPlaceholder(value)
  {
    var value := n + " /.";
    assert value == (n + " ") + "/" + ".";
    BlankBehind(n);
    PartsSlash(n + " ", ".");
    PartsName(n + " ");
    SplitPlain(".");
    assert PartsOf(["."]) == PartOf(".") + PartsOf(["."][1..]);
    PlaceholderSlash(n + " ", ".");
    TrimFixed(value);
  }

  lemma UncoveredCandidate(w: string, n: string)
    requires Plain(w) && Clean(n)
    ensures Candidate(Normal("/" + w), n + " /.") == Path(true, [w, n + " "])
  {
    BlankDotParts(n);
    OnePart(w, n + " ");
    Texts(w, n + " /.", [Name(n + " ")]);
  }

  lemma UncoveredDirect(w: string, n: string, cwd: Option<string>)
    requires Clean(w) && Clean(n)
    ensures Resolve("/" + w, cwd, n + " /.") == Accepted("/" + w + "/" + n + " ")
  {
    BlankDotParts(n);
    UncoveredCandidate(w, n);
    DirectIs(w, cwd, n + " /.", n + " /.", [w, n + " "]);
    TwoNames(w, n + " ");
    assert "/" + w + "/" + n + " " == "/" + w + "/" + (n + " ");
  }

  /** A blank that the first stage uncovers is cut off by the second: `a /.` below `/w`. */
  lemma UncoveredBlank(w: string, n: string, cwd: Option<string>)
    requires Clean(w) && Clean(n)
    ensures Resolve("/" + w, cwd, n + " /.") == Accepted("/" + w + "/" + n + " ")
    ensures Resolve("/" + w, cwd, ResolveEnginePath(n + " /.", "/" + w)) == Accepted("/" + w + "/" + n)
  {
    var value, b := n + " /.", n + " ";
    BlankDotParts(n);
    BlankBehind(n);
    UncoveredDirect(w, n, cwd);
    NameVia(w, value, b);
    TrimOneBlank("/" + w + "/" + n);
    assert "/" + w + "/" + b == "/" + w + "/" + n + " ";
    FullDirect(w, cwd, "/" + w + "/" + b, n);
  }

  lemma SeesPlaceholder(w: string, cwd: Option<string>, value: string)
    requires HasPlaceholder(value) && Trim(value) == value
    ensures Resolve("/" + w, cwd, value) == Placeholder
  {
  }

  lemma PlaceholderViaRoot(w: string, n: string, cwd: Option<string>)
    requires Plain(w) && HasPlaceholder(w) && Clean(n)
    ensures Resolve("/" + w, cwd, ResolveEnginePath(n, "/" + w)) == Placeholder
  {
    PartsName(n);
    NameVia(w, n, n);
    FullText(w, n);
    SeesPlaceholder(w, cwd, "/" + w + "/" + n);
  }

  /** A placeholder in the work root is seen by the second stage only. */
  lemma PlaceholderInRoot(w: string, n: string, cwd: Option<string>)
    requires Plain(w) && HasPlaceholder(w) && Clean(n)
    ensures Resolve("/" + w, cwd, n) == Accepted("/" + w + "/" + n)
    ensures Resolve("/" + w, cwd, ResolveEnginePath(n, "/" + w)) == Placeholder
  {
    TrimFixed(n);
    NameDirect(w, cwd, n, n);
    PlaceholderViaRoot(w, n, cwd);
  }

  lemma PartsUp()
    ensures Parts("..") == [Up]
  {
    SplitPlain("..");
    assert PartsOf([".."]) == PartOf("..") + PartsOf([".."][1..]);
  }

  lemma DetourParts(p: string, n: string)
    requires Plain(p) && Plain(n)
    ensures Parts(p + "/" + ("../" + n)) == [Name(p), Up, Name(n)]
  {
    assert "../" + n == ".." + "/" + n;
    PartsSlash(p, "../" + n);
    PartsSlash("..", n);
    PartsName(p);
    PartsName(n);
    PartsUp();
  }

  lemma DetourFold(w: string, p: string, n: string)
    ensures Fold([w], [Name(p), Up, Name(n)]) == [w, n] && !Climbs([w], [Name(p), Up, Name(n)])
  {
    var parts := [Name(p), Up, Name(n)];
    assert parts[1..] == [Up, Name(n)] && [Up, Name(n)][1..] == [Name(n)];
    assert [w] + [p] == [w, p] && [w, p][..1] == [w];
    OnePart(w, n);
    assert Fold([w, p], [Up, Name(n)]) == Fold([w], [Name(n)]);
    assert !Climbs([w, p], [Up, Name(n)]);
  }

  lemma CancelledVia(w: string, p: string, n: string, cwd: Option<string>)
    requires Clean(w) && Clean(n) && Plain(p)
    ensures Resolve("/" + w, cwd, ResolveEnginePath(p + "/" + ("../" + n), "/" + w)) == Accepted("/" + w + "/" + n)
  {
    var value := p + "/" + ("../" + n);
    DetourParts(p, n);
    DetourFold(w, p, n);
    assert !Absolute(value);
    Texts(w, value, [Name(p), Up, Name(n)]);
    TwoNames(w, n);
    FullText(w, n);
    FullDirect(w, cwd, "/" + w + "/" + n, n);
  }

  /** A placeholder that the first stage removes is never reported: `${X}/../a` below `/w`. */
  lemma PlaceholderCancelled(w: string, p: string, n: string, cwd: Option<string>)
    requires Clean(w) && Clean(n) && Plain(p) && HasPlaceholder(p) && !IsSpace(p[0])
    ensures Resolve("/" + w, cwd, p + "/" + ("../" + n)) == Placeholder
    ensures Resolve("/" + w, cwd, ResolveEnginePath(p + "/" + ("../" + n), "/" + w)) == Accepted("/" + w + "/" + n)
  {
    var value := p + "/" + ("../" + n);
    PlaceholderSlash(p, "../" + n);
    TrimFixed(value);
    SeesPlaceholder(w, cwd, value);
    CancelledVia(w, p, n, cwd);
  }

  lemma ClimbFold(w: string, n: string)
    ensures Fold([w], [Up, Up, Name(n)]) == [n] && Climbs([w], [Up, Up, Name(n)])
  {
    var parts := [Up, Up, Name(n)];
    assert parts[1..] == [Up, Name(n)] && [Up, Name(n)][1..] == [Name(n)] && [Name(n)][1..] == [];
    assert [w][..0] == [] && [] + [n] == [n];
    assert Fold([n], []) == [n];
    assert Fold([], [Name(n)]) == [n];
    assert Fold([], [Up, Name(n)]) == Fold([], [Name(n)]);
    assert Climbs([], [Up, Name(n)]);
  }

  lemma ClimbParts(n: string)
    requires Plain(n)
    ensures Parts("../" + ("../" + n)) == [Up, Up, Name(n)]
  {
    assert "../" + ("../" + n) == ".." + "/" + ("../" + n);
    assert "../" + n == ".." + "/" + n;
    PartsSlash("..", "../" + n);
    PartsSlash("..", n);
    PartsName(n);
    PartsUp();
  }

  lemma ClimbText(n: string)
    requires Clean(n)
    ensures var value := "../" + ("../" + n); value != "" && Trim(value) == value && !HasPlaceholder(value)
  {
    NoPlaceholderUp(n);
    TrimFixed("../" + ("../" + n));
  }

  lemma ClimbCandidate(w: string, n: string)
    requires Plain(w) && Plain(n)
    ensures Candidate(Normal("/" + w), "../" + ("../" + n)) == Path(true, [n])
  {
    ClimbParts(n);
    ClimbFold(w, n);
    Texts(w, "../" + ("../" + n), [Up, Up, Name(n)]);
  }

  lemma NotPrefix(w: string, n: string)
    requires n != w
    ensures !([n] <= [w])
  {
    assert [n][0] != [w][0];
  }

  lemma ClimbDirect(w: string, n: string, cwd: Option<string>)
    requires Clean(w) && Clean(n) && n != w
    ensures Resolve("/" + w, cwd, "../" + ("../" + n)) == Accepted("/" + n)
  {
    ClimbText(n);
    ClimbCandidate(w, n);
    NotPrefix(w, n);
    DirectIs(w, cwd, "../" + ("../" + n), "../" + ("../" + n), [n]);
    OneName(n);
  }

  lemma ClimbVia(w: string, n: string, cwd: Option<string>)
    requires Clean(w) && Clean(n)
    ensures Resolve("/" + w, cwd, ResolveEnginePath("../" + ("../" + n), "/" + w)) == Accepted("/" + w + "/" + n)
  {
    var value := "../" + ("../" + n);
    ClimbParts(n);
    ClimbFold(w, n);
    Texts(w, value, [Up, Up, Name(n)]);
    assert Render(Path(false, [n])) == "" + n == n;
    TrimFixed(n);
    NameDirect(w, cwd, n, n);
  }

  /** A path that climbs loses its root in the first stage: `../../b` below `/w`. */
  lemma ClimbingLosesRoot(w: string, n: string, cwd: Option<string>)
    requires Clean(w) && Clean(n) && n != w
    ensures Resolve("/" + w, cwd, "../" + ("../" + n)) == Accepted("/" + n)
    ensures Resolve("/" + w, cwd, ResolveEnginePath("../" + ("../" + n), "/" + w)) == Accepted("/" + w + "/" + n)
  {
    ClimbDirect(w, n, cwd);
    ClimbVia(w, n, cwd);
  }

  lemma NoPlaceholderUp(n: string)
    requires Clean(n)
    ensures !HasPlaceholder("../" + ("../" + n))
  {
    assert "../" + n == ".." + "/" + n && "../" + ("../" + n) == ".." + "/" + ("../" + n);
    PlaceholderSlash("..", n);
    PlaceholderSlash("..", "../" + n);
  }

  lemma LeadingBlankVia(w: string, n: string, cwd: Option<string>)
    requires Clean(w) && Clean(n)
    ensures Resolve("/" + w, cwd, ResolveEnginePath(" " + n, "/" + w)) == Accepted("/" + w + "/" + (" " + n))
  {
    var value := " " + n;
    BlankInFront(n);
    PartsName(value);
    NameVia(w, value, value);
    FullText(w, value);
    FullDirect(w, cwd, "/" + w + "/" + value, value);
  }

  /** Blanks in front: cut off by the one resolution, part of a name in the other. */
  lemma LeadingBlankIsKept(w: string, n: string, cwd: Option<string>)
    requires Clean(w) && Clean(n)
    ensures Resolve("/" + w, cwd, " " + n) == Accepted("/" + w + "/" + n)
    ensures Resolve("/" + w, cwd, ResolveEnginePath(" " + n, "/" + w)) == Accepted("/" + w + "/" + (" " + n))
  {
    BlankInFront(n);
    NameDirect(w, cwd, " " + n, n);
    LeadingBlankVia(w, n, cwd);
  }

  lemma TrimBlankSlash(n: string)
    requires Clean(n)
    ensures Trim(" /" + n) == "/" + n
  {
    var value := " /" + n;
    assert value[1..] == "/" + n;
    assert TrimStart(value) == TrimStart("/" + n) == "/" + n;
    TrimFixed("/" + n);
  }

  lemma BlankSlashParts(n: string)
    requires Clean(n)
    ensures var value := " /" + n;
            && !Absolute(value) && Parts(value) == [Name(" "), Name(n)]
            && Trim(value) == "/" + n && !HasPlaceholder("/" + n)
  {
    var value := " /" + n;
    assert value == " " + "/" + n && "/" + n == "" + "/" + n;
    PartsSlash(" ", n);
    PartsName(" ");
    PartsName(n);
    TrimBlankSlash(n);
    PlaceholderSlash("", n);
  }

  lemma BlankSlashFold(w: string, n: string)
    ensures Fold([w], [Name(" "), Name(n)]) == [w, " ", n] && !Climbs([w], [Name(" "), Name(n)])
  {
    var parts := [Name(" "), Name(n)];
    assert parts[1..] == [Name(n)] && [Name(n)][1..] == [];
    assert [w] + [" "] == [w, " "] && [w, " "] + [n] == [w, " ", n];
    assert Fold([w, " ", n], []) == [w, " ", n] && !Climbs([w, " ", n], []);
    assert Fold([w, " "], [Name(n)]) == [w, " ", n] && !Climbs([w, " "], [Name(n)]);
  }

  lemma CandidateOfOne(w: string, n: string)
    requires Plain(w) && Plain(n)
    ensures Candidate(Normal("/" + w), "/" + n) == Path(true, [n])
  {
    OneName(n);
  }

  lemma ThreeNames(a: string, b: string, c: string)
    ensures Render(Path(true, [a, b, c])) == "/" + a + "/" + (b + "/" + c)
    ensures HasPlaceholder(Render(Path(true, [a, b, c]))) <==> HasPlaceholder(a) || HasPlaceholder(b) || HasPlaceholder(c)
  {
    assert [a, b, c][1..] == [b, c] && [b, c][1..] == [c];
    assert JoinNames([b, c]) == b + "/" + c;
    assert JoinNames([a, b, c]) == a + "/" + (b + "/" + c);
    assert "/" + (a + "/" + (b + "/" + c)) == "/" + a + "/" + (b + "/" + c);
    TwoNames(a, b + "/" + c);
    assert Render(Path(true, [a, b + "/" + c])) == Render(Path(true, [a, b, c]));
    PlaceholderSlash(b, c);
  }

  lemma HiddenRootDirect(w: string, n: string, cwd: Option<string>)
    requires Clean(w) && Clean(n) && n != w
    ensures Resolve("/" + w, cwd, " /" + n) == Accepted("/" + n)
  {
    BlankSlashParts(n);
    OneName(n);
    CandidateOfOne(w, n);
    NotPrefix(w, n);
    DirectIs(w, cwd, " /" + n, "/" + n, [n]);
  }

  lemma HiddenRootText(w: string, n: string)
    requires Clean(w) && Clean(n)
    ensures ResolveEnginePath(" /" + n, "/" + w) == Render(Path(true, [w, " ", n]))
  {
    BlankSlashParts(n);
    BlankSlashFold(w, n);
    Texts(w, " /" + n, [Name(" "), Name(n)]);
  }

  /** A full path of three names is its own answer. */
  lemma ThreeVia(w: string, b: string, n: string, cwd: Option<string>)
    requires Clean(w) && Plain(b) && !HasPlaceholder(b) && Clean(n)
    ensures Resolve("/" + w, cwd, Render(Path(true, [w, b, n]))) == Accepted("/" + w + "/" + (b + "/" + n))
  {
    ThreeNames(w, b, n);
    TrimFixed("/" + w + "/" + (b + "/" + n));
    ViaIs(w, cwd, "/" + w + "/" + (b + "/" + n), [w, b, n]);
  }

  lemma HiddenRootVia(w: string, n: string, cwd: Option<string>)
    requires Clean(w) && Clean(n)
    ensures Resolve("/" + w, cwd, ResolveEnginePath(" /" + n, "/" + w)) == Accepted("/" + w + "/" + (" /" + n))
  {
    HiddenRootText(w, n);
    ThreeVia(w, " ", n, cwd);
    assert " " + "/" + n == " /" + n;
  }

  /** With a blank in front the first stage no longer recognises an absolute path: ` /a` below `/w`. */
  lemma BlankHidesRoot(w: string, n: string, cwd: Option<string>)
    requires Clean(w) && Clean(n) && n != w
    ensures Resolve("/" + w, cwd, " /" + n) == Accepted("/" + n)
    ensures Resolve("/" + w, cwd, ResolveEnginePath(" /" + n, "/" + w)) == Accepted("/" + w + "/" + (" /" + n))
  {
    HiddenRootDirect(w, n, cwd);
    HiddenRootVia(w, n, cwd);
  }
}
