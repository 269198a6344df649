/**
 * Blanks around a configured state directory.  The state directory's resolution trims them; the
 * configuration's, which comes first, keeps them in the first and the last name.
 */
module StateDirBlanks {
  import opened Common
  import opened StateDir

  // ------------------------------------------------- text around a path string

  predicate AllBlank(s: string) { forall i :: 0 <= i < |s| ==> IsSpace(s[i]) }

  predicate EndsSolid(s: string) { s == "" || !IsSpace(s[|s| - 1]) }

  /** The blanks in front. */
  function Lead(s: string): (r: string)
    ensures s == r + TrimStart(s) && AllBlank(r)
  {
    if s != "" && IsSpace(s[0]) then
      var r := Lead(s[1..]);
      assert s == [s[0]] + s[1..];
      [s[0]] + r
    else ""
  }

  /** The blanks behind. */
  function Trail(s: string): (r: string)
    ensures s == TrimEnd(s) + r && AllBlank(r) && EndsSolid(TrimEnd(s))
  {
    var n := |s| - 1;
    if s != "" && IsSpace(s[n]) then
      var r := Trail(s[..n]);
      assert s == s[..n] + [s[n]];
      r + [s[n]]
    else ""
  }

  lemma {:induction false} TrimEndAppend(a: string, blanks: string)
    requires EndsSolid(a) && AllBlank(blanks)
    ensures TrimEnd(a + blanks) == a
  {
    if blanks == "" {
      assert a + blanks == a;
    } else {
      var n := |blanks| - 1;
      TrimEndAppend(a, blanks[..n]);
      assert (a + blanks)[..|a + blanks| - 1] == a + blanks[..n];
    }
  }

  /** Trimming behind first: the blanks in front stay. */
  lemma TrimSides(value: string)
    requires Trim(value) != ""
    ensures TrimEnd(value) == Lead(value) + Trim(value)
  {
    var lead, mid := Lead(value), TrimStart(value);
    var solid, behind := TrimEnd(mid), Trail(mid);
    assert value == lead + solid + behind;
    TrimEndAppend(lead + solid, behind);
  }

  // ---------------------------------------------------------- first and last piece

  lemma {:induction false} SplitFront(front: string, s: string)
    requires '/' !in front
    ensures Split(front + s) == [front + Split(s)[0]] + Split(s)[1..]
  {
    if front == "" {
      assert front + s == s && front + Split(s)[0] == Split(s)[0];
    } else {
      assert (front + s)[1..] == front[1..] + s;
      SplitFront(front[1..], s);
      assert [front[0]] + (front[1..] + Split(s)[0]) == front + Split(s)[0];
    }
  }

  lemma {:induction false} SplitBehind(s: string, behind: string)
    requires '/' !in behind
    ensures Split(s + behind) == Extended(Split(s), behind)
  {
    if s == "" {
      assert s + behind == behind && "" + behind == behind;
      SplitPlain(behind);
    } else {
      assert (s + behind)[1..] == s[1..] + behind;
      SplitBehind(s[1..], behind);
      if s[0] == '/' {
        ExtendSlashed(Split(s[1..]), behind);
      } else {
        ExtendLettered(s[0], Split(s[1..]), behind);
      }
    }
  }

  /** Pieces with something appended to the last one. */
  function Extended(t: seq<string>, behind: string): seq<string>
    requires t != []
  {
    t[..|t| - 1] + [t[|t| - 1] + behind]
  }

  /** A letter in front of the pieces. */
  function Lettered(c: char, t: seq<string>): seq<string>
    requires t != []
  {
    [[c] + t[0]] + t[1..]
  }

  lemma ExtendLettered(c: char, t: seq<string>, behind: string)
    requires t != []
    ensures Lettered(c, Extended(t, behind)) == Extended(Lettered(c, t), behind)
  {
    var n := |t| - 1;
    if n == 0 {
      assert Extended(t, behind) == [t[0] + behind] && Lettered(c, t) == [[c] + t[0]];
      assert [c] + (t[0] + behind) == [c] + t[0] + behind;
    } else {
      assert Extended(t, behind)[0] == t[0];
      assert Extended(t, behind)[1..] == t[1..n] + [t[n] + behind];
      assert Lettered(c, t)[..n] == [[c] + t[0]] + t[1..n];
    }
  }

  lemma ExtendSlashed(t: seq<string>, behind: string)
    requires t != []
    ensures [""] + Extended(t, behind) == Extended([""] + t, behind)
  {
    assert ([""] + t)[..|t|] == [""] + t[..|t| - 1];
  }

  lemma PartsOfOne(piece: string)
    ensures PartsOf([piece]) == PartOf(piece)
  {
    assert PartsOf([piece]) == PartOf(piece) + PartsOf([piece][1..]);
  }

  lemma BlankIsPlain(a: string, blanks: string, b: string)
    requires blanks != "" && AllBlank(blanks) && '/' !in a && '/' !in b
    ensures Plain(a + blanks + b) && '/' !in blanks
  {
    var s := a + blanks + b;
    assert IsSpace(blanks[0]) && s[|a|] == blanks[0];
    assert '/' !in blanks;
  }

  // ------------------------------------------------------------- what the second stage reads

  /** The last piece of a trimmed absolute text is read again after the first stage wrote it. */
  lemma PartsBelow(names: seq<string>, piece: string)
    requires AllPlain(names) && '/' !in piece
    ensures var base := if names == [] then "/" else Render(Path(true, names)) + "/";
            Fold([], Parts(base + piece)) == Fold(names, PartOf(piece))
  {
    var text := if names == [] then "" else Render(Path(true, names));
    SplitPlain(piece);
    PartsOfOne(piece);
    PartsSlash(text, piece);
    PartsEmpty();
    RenderParts(Path(true, names));
    FoldAppend([], Names(names), PartOf(piece));
    FoldNames([], names);
    assert [] + names == names;
    assert text + "/" + piece == (if names == [] then "/" else text + "/") + piece;
  }

  lemma RenderLast(names: seq<string>, n: string)
    ensures Render(Path(true, names + [n])) == (if names == [] then "/" else Render(Path(true, names)) + "/") + n
  {
    JoinNamesAppend(names, n);
    if names == [] {
      assert names + [n] == [n];
    } else {
      assert "/" + (JoinNames(names) + "/" + n) == "/" + JoinNames(names) + "/" + n;
    }
  }

  /** Trimming the last name of a full path leaves the piece it was made from. */
  lemma CutLast(names: seq<string>, piece: string, blanks: string)
    requires AllPlain(names) && '/' !in piece && EndsSolid(piece) && AllBlank(blanks)
    ensures var cut := Trim(Render(Path(true, names + [piece + blanks])));
            Absolute(cut) && Normal(cut) == Path(true, Fold(names, PartOf(piece)))
  {
    var base := if names == [] then "/" else Render(Path(true, names)) + "/";
    var text := Render(Path(true, names + [piece + blanks]));
    RenderLast(names, piece + blanks);
    assert text == base + piece + blanks;
    assert EndsSolid(base + piece);
    assert text[0] == '/' && TrimStart(text) == text;
    TrimEndAppend(base + piece, blanks);
    PartsBelow(names, piece);
  }

  lemma PartsLast(pieces: seq<string>, piece: string)
    ensures PartsOf(pieces + [piece]) == PartsOf(pieces) + PartOf(piece)
  {
    PartsOfAppend(pieces, [piece]);
    PartsOfOne(piece);
  }

  function Front(pieces: seq<string>): seq<string>
    requires pieces != []
  {
    pieces[..|pieces| - 1]
  }

  function Last(pieces: seq<string>): string
    requires pieces != []
  {
    pieces[|pieces| - 1]
  }

  lemma LastPart(pieces: seq<string>)
    requires pieces != []
    ensures PartsOf(pieces) == PartsOf(Front(pieces)) + PartOf(Last(pieces))
  {
    PartsLast(Front(pieces), Last(pieces));
    assert pieces == Front(pieces) + [Last(pieces)];
  }

  lemma PlainPartOf(n: string)
    requires Plain(n)
    ensures PartOf(n) == [Name(n)]
  {
  }

  lemma ExtendedPart(pieces: seq<string>, behind: string)
    requires pieces != [] && Plain(Last(pieces) + behind)
    ensures PartsOf(Extended(pieces, behind)) == PartsOf(Front(pieces)) + [Name(Last(pieces) + behind)]
  {
    PartsLast(Front(pieces), Last(pieces) + behind);
    PlainPartOf(Last(pieces) + behind);
  }

  /** A value with blanks behind: the pieces before the last one, and the last one with the blanks. */
  lemma TrailParts(s: string, behind: string)
    requires behind != "" && AllBlank(behind)
    ensures var pieces := Split(s);
            && Parts(s + behind) == PartsOf(Front(pieces)) + [Name(Last(pieces) + behind)]
            && '/' !in Last(pieces)
  {
    var pieces := Split(s);
    SplitNoSlash(s, |pieces| - 1);
    BlankIsPlain(Last(pieces), behind, "");
    assert Last(pieces) + behind + "" == Last(pieces) + behind;
    SplitBehind(s, behind);
    ExtendedPart(pieces, behind);
  }

  lemma {:induction false} LastPieceSolid(s: string)
    requires EndsSolid(s)
    ensures EndsSolid(Split(s)[|Split(s)| - 1])
  {
    if |s| > 1 {
      LastPieceSolid(s[1..]);
      var t := Split(s[1..]);
      if s[0] != '/' && |t| == 1 {
        SplitWhole(s);
      }
    } else if s != "" {
      assert s == [s[0]];
      assert Split(s[1..]) == [""];
    }
  }

  lemma {:induction false} SplitWhole(s: string)
    requires |Split(s)| == 1
    ensures Split(s) == [s]
  {
    if s != "" {
      SplitWhole(s[1..]);
      assert s == [s[0]] + s[1..];
    }
  }

  /** The first stage writes a full path whose last blanks are the value's own or not blanks at all. */
  predicate CutsOwnBlanks(workRoot: string, value: string) {
    var via := ResolveEnginePath(value, workRoot);
    !Climbs([], Parts(workRoot) + Parts(value)) && (Trail(value) != "" || Trim(via) == via)
  }

  /** With such a text the second stage reads the value with its blanks in front and without those behind. */
  lemma SecondStageReads(workRoot: string, value: string)
    requires Absolute(workRoot) && !Absolute(value) && value != "" && CutsOwnBlanks(workRoot, value)
    ensures var via := Trim(ResolveEnginePath(value, workRoot));
            && via != "" && Candidate(Normal(workRoot), via) == Path(true, Fold(Normal(workRoot).names, Parts(TrimEnd(value))))
  {
    JoinedFacts(workRoot, value);
    var d := Normal(Join(workRoot, value));
    if Trail(value) == "" {
      RenderRoundTrip(d);
    } else {
      TrailRead(workRoot, value);
    }
  }

  /** The names both stages walk through, when the last piece has blanks behind it in the first. */
  lemma TrailFold(root: seq<string>, s: string, behind: string)
    requires behind != "" && AllBlank(behind)
    ensures var names := Fold(root, PartsOf(Front(Split(s))));
            && Fold(root, Parts(s + behind)) == names + [Last(Split(s)) + behind]
            && Fold(root, Parts(s)) == Fold(names, PartOf(Last(Split(s))))
  {
    var front, last := PartsOf(Front(Split(s))), Last(Split(s));
    TrailParts(s, behind);
    LastPart(Split(s));
    FoldAppend(root, front, [Name(last + behind)]);
    FoldOne(Fold(root, front), last + behind);
    FoldAppend(root, front, PartOf(last));
  }

  lemma TrailRead(workRoot: string, value: string)
    requires Absolute(workRoot) && Trail(value) != ""
    ensures var root := Normal(workRoot).names;
            var cut := Trim(Render(Path(true, Fold(root, Parts(value)))));
            Absolute(cut) && Normal(cut) == Path(true, Fold(root, Parts(TrimEnd(value))))
  {
    var root := Normal(workRoot).names;
    var s, behind := TrimEnd(value), Trail(value);
    TrailParts(s, behind);
    TrailFold(root, s, behind);
    LastPieceSolid(s);
    FrontPlain(workRoot, Front(Split(s)), s);
    CutLast(Fold(root, PartsOf(Front(Split(s)))), Last(Split(s)), behind);
  }

  lemma FoldOne(names: seq<string>, n: string)
    ensures Fold(names, [Name(n)]) == names + [n]
  {
    assert Fold(names + [n], [Name(n)][1..]) == names + [n];
  }

  lemma FrontPlain(workRoot: string, front: seq<string>, s: string)
    requires front <= Split(s)
    ensures AllPlain(Fold(Normal(workRoot).names, PartsOf(front)))
  {
    forall i | 0 <= i < |front| ensures '/' !in front[i] {
      SplitNoSlash(s, i);
    }
    PartsOfPlain(front);
    NormalIsPlain(workRoot);
    FoldPlain(Normal(workRoot).names, PartsOf(front));
  }

  // ------------------------------------------------------------- when a difference is forgotten

  /** Going through the parts from some names, all of them are taken away at some point. */
  predicate Drains(names: seq<string>, parts: seq<Part>)
    decreases |parts|
  {
    names == [] || (parts != [] && Drains(Step(names, parts[0]), parts[1..]))
  }

  /** Of two lists of names the longer one is caught up with exactly if it drains. */
  lemma {:induction false} LongerIsForgottenIff(long: seq<string>, short: seq<string>, parts: seq<Part>)
    requires |long| > |short|
    ensures Fold(long, parts) == Fold(short, parts) <==> Drains(long, parts)
    decreases |parts|
  {
    if parts != [] {
      var a, b := Step(long, parts[0]), Step(short, parts[0]);
      if a != [] {
        LongerIsForgottenIff(a, b, parts[1..]);
      }
    }
  }

  /** A name that differs is forgotten exactly if it and all that follow it drain. */
  lemma {:induction false} NameIsForgottenIff(
    root: seq<string>, a: string, b: string, names: seq<string>, parts: seq<Part>)
    requires a != b
    ensures Fold(root + [a] + names, parts) == Fold(root + [b] + names, parts) <==> Drains([a] + names, parts)
    decreases |parts|
  {
    if parts == [] {
      assert (root + [a] + names)[|root|] != (root + [b] + names)[|root|];
    } else if parts[0].Name? {
      var longer := names + [parts[0].text];
      RegroupEnd(root + [a], names, parts[0].text);
      RegroupEnd(root + [b], names, parts[0].text);
      RegroupEnd([a], names, parts[0].text);
      NameIsForgottenIff(root, a, b, longer, parts[1..]);
    } else if names == [] {
      assert Step(root + [a] + names, Up) == root == Step(root + [b] + names, Up);
      assert Step([a] + names, Up) == [];
    } else {
      StepUp(root + [a], names);
      StepUp(root + [b], names);
      StepUp([a], names);
      NameIsForgottenIff(root, a, b, names[..|names| - 1], parts[1..]);
    }
  }

  lemma StepUp(front: seq<string>, names: seq<string>)
    requires names != []
    ensures Step(front + names, Up) == front + names[..|names| - 1]
  {
  }

  // ------------------------------------------------------------------ the guards

  /** First piece of the trimmed value, and the components behind it. */
  function First(value: string): string { Split(Trim(value))[0] }
  function Rest(value: string): seq<Part> { PartsOf(Split(Trim(value))[1..]) }

  /** Names before the rest in the one resolution. */
  function DirectStart(root: seq<string>, first: string): seq<string> {
    if first == "" then [] else Fold(root, PartOf(first))
  }

  /** Blanks in front: the name they make is taken away again. */
  predicate BlankForgotten(root: seq<string>, value: string) {
    var name := Lead(value) + First(value);
    Drains(if Plain(First(value)) then [name] else root + [name], Rest(value))
  }

  /** The first piece of a trimmed value decides whether it is absolute. */
  lemma FirstIs(value: string)
    requires Trim(value) != ""
    ensures First(value) == "" <==> Absolute(Trim(value))
    ensures '/' !in First(value)
    ensures Parts(Trim(value)) == PartOf(First(value)) + Rest(value)
  {
    SplitNoSlash(Trim(value), 0);
  }

  lemma DirectPlace(workRoot: string, value: string)
    requires Absolute(workRoot) && Trim(value) != ""
    ensures Candidate(Normal(workRoot), Trim(value)) ==
              Path(true, Fold(DirectStart(Normal(workRoot).names, First(value)), Rest(value)))
  {
    var root, raw := Normal(workRoot).names, Trim(value);
    FirstIs(value);
    if Absolute(raw) {
      assert PartOf("") + Rest(value) == Rest(value);
    } else {
      JoinedFacts(workRoot, raw);
      FoldAppend(root, PartOf(First(value)), Rest(value));
    }
  }

  /** Blanks in front of a path string make its first piece a name. */
  lemma BlankFirst(lead: string, raw: string)
    requires lead != "" && AllBlank(lead)
    ensures Parts(lead + raw) == [Name(lead + Split(raw)[0])] + PartsOf(Split(raw)[1..])
  {
    var first := Split(raw)[0];
    SplitNoSlash(raw, 0);
    BlankIsPlain("", lead, first);
    assert "" + lead + first == lead + first;
    SplitFront(lead, raw);
    PartsOfAppend([lead + first], Split(raw)[1..]);
    PartsOfOne(lead + first);
  }

  /** Components of a value with blanks in front, once those behind are gone. */
  lemma LeadParts(value: string)
    requires Trim(value) != "" && Lead(value) != ""
    ensures Parts(TrimEnd(value)) == [Name(Lead(value) + First(value))] + Rest(value)
  {
    TrimSides(value);
    BlankFirst(Lead(value), Trim(value));
  }

  /** Where the two resolutions begin with the rest, and that they meet exactly if the blank is forgotten. */
  lemma ForgottenIff(root: seq<string>, value: string)
    requires Trim(value) != "" && Lead(value) != ""
    ensures var name := Lead(value) + First(value);
            Fold(DirectStart(root, First(value)), Rest(value)) == Fold(root + [name], Rest(value)) <==>
              BlankForgotten(root, value)
  {
    var first, name := First(value), Lead(value) + First(value);
    FirstIs(value);
    if Plain(first) {
      FoldOne(root, first);
      NameIsForgottenIff(root, name, first, [], Rest(value));
      assert root + [name] + [] == root + [name] && root + [first] + [] == root + [first] && [name] + [] == [name];
    } else {
      StartIsShort(root, first);
      LongerIsForgottenIff(root + [name], DirectStart(root, first), Rest(value));
    }
  }

  lemma StartIsShort(root: seq<string>, first: string)
    requires !Plain(first) && '/' !in first
    ensures |DirectStart(root, first)| <= |root|
  {
    if first == ".." {
      assert Fold(Step(root, Up), [Up][1..]) == Step(root, Up);
    }
  }

  lemma LeadRead(workRoot: string, value: string)
    requires Absolute(workRoot) && Trim(value) != "" && Lead(value) != "" && CutsOwnBlanks(workRoot, value)
    ensures var via := Trim(ResolveEnginePath(value, workRoot));
            && via != "" && Candidate(Normal(workRoot), via) ==
                 Path(true, Fold(Normal(workRoot).names + [Lead(value) + First(value)], Rest(value)))
  {
    assert IsSpace(Lead(value)[0]) && value[0] == Lead(value)[0];
    SecondStageReads(workRoot, value);
    LeadParts(value);
    FoldName(Normal(workRoot).names, Lead(value) + First(value), Rest(value));
  }

  /**
   * The guards for a value with blanks around it.  Blanks behind alone are cut off by both.  Blanks in
   * front make a name that only the first stage sees: before a name the two agree if that name is taken
   * away again, before a slash, `.` or `..` if everything up to the root is; or both lie above the work root.
   */
  predicate BlanksAgree(workRoot: string, value: string) {
    var root, name := Normal(workRoot).names, Lead(value) + First(value);
    || Lead(value) == ""
    || BlankForgotten(root, value)
    || (Fold(DirectStart(root, First(value)), Rest(value)) < root && Fold(root + [name], Rest(value)) < root)
  }

  lemma BlankFate(workRoot: string, value: string)
    requires Absolute(workRoot) && Trim(value) != "" && !Absolute(value) && CutsOwnBlanks(workRoot, value)
    requires var via := ResolveEnginePath(value, workRoot); !HasPlaceholder(Trim(value)) && !HasPlaceholder(Trim(via))
    ensures SameFate(workRoot, Trim(value), Trim(ResolveEnginePath(value, workRoot))) <==> BlanksAgree(workRoot, value)
  {
    var raw, via := Trim(value), Trim(ResolveEnginePath(value, workRoot));
    if Lead(value) == "" {
      TrailFate(workRoot, value);
    } else {
      DirectPlace(workRoot, value);
      LeadRead(workRoot, value);
      CandidateFacts(workRoot, raw);
      CandidateFacts(workRoot, via);
      RenderInjective(Candidate(Normal(workRoot), raw), Candidate(Normal(workRoot), via));
      ForgottenIff(Normal(workRoot).names, value);
    }
  }

  lemma TrailFate(workRoot: string, value: string)
    requires Absolute(workRoot) && Trim(value) != "" && !Absolute(value) && CutsOwnBlanks(workRoot, value)
    requires Lead(value) == ""
    ensures Place(workRoot, Trim(value)) == Place(workRoot, Trim(ResolveEnginePath(value, workRoot)))
  {
    assert value == TrimStart(value);
    SecondStageReads(workRoot, value);
    TrimEndShortens(value);
    JoinedFacts(workRoot, Trim(value));
  }

  /** For every value with blanks around it that does not climb above the root and uncovers no other blank. */
  lemma BlankStagesIff(workRoot: string, cwd: Option<string>, value: string)
    requires Absolute(workRoot) && Trim(value) != "" && !Absolute(value) && CutsOwnBlanks(workRoot, value)
    ensures var via := ResolveEnginePath(value, workRoot);
            Resolve(workRoot, cwd, via) == Resolve(workRoot, cwd, value) <==>
              if HasPlaceholder(value) || HasPlaceholder(via) then HasPlaceholder(value) && HasPlaceholder(via)
              else BlanksAgree(workRoot, value)
  {
    var via := ResolveEnginePath(value, workRoot);
    TwoStagesIff(workRoot, cwd, value);
    TrimPlaceholder(value);
    TrimPlaceholder(via);
    if !HasPlaceholder(value) && !HasPlaceholder(via) {
      BlankFate(workRoot, value);
    }
  }
}
