/** The resource-path algebra (resource_path.go) and the two checks built on it:
    the issuer's joint-satisfiability check (protocol_v2_wire.go) and the
    verifier's evaluation of one constraint (constraints_v2.go). */
module ResourcePath {
  import opened StatusTypes

  predicate SlashFree(s: string) { '/' !in s }

  /** The pieces between the slashes; at least one. */
  function Split(s: string): (r: seq<string>)
    ensures |r| >= 1 && forall i :: 0 <= i < |r| ==> SlashFree(r[i])
    ensures Render(r) == "/" + s
  {
    SplitAt(s, 0)
  }

  /** As Split, when the first `i` characters hold no slash. */
  function SplitAt(s: string, i: nat): (r: seq<string>)
    requires i <= |s| && SlashFree(s[..i])
    ensures |r| >= 1 && forall k :: 0 <= k < |r| ==> SlashFree(r[k])
    ensures Render(r) == "/" + s
    decreases |s|, |s| - i
  {
    if i == |s| then
      assert s[..i] == s;
      assert Render([s]) == "/" + s + Render([]);
      [s]
    else if s[i] == '/' then
      var rest := SplitAt(s[i + 1..], 0);
      assert s == s[..i] + ("/" + s[i + 1..]);
      assert ([s[..i]] + rest)[1..] == rest;
      [s[..i]] + rest
    else
      assert s[..i + 1] == s[..i] + [s[i]];
      SplitAt(s, i + 1)
  }

  /** A slash before every segment. */
  function Render(segments: seq<string>): string {
    if segments == [] then "" else "/" + segments[0] + Render(segments[1..])
  }

  function Trim(p: string): string {
    if p != "" && p[|p| - 1] == '/' then p[..|p| - 1] else p
  }

  predicate BadSegment(s: string) { s == "" || s == "." || s == ".." }

  predicate ValidPath(p: string) {
    && p != "" && p[0] == '/' && '\0' !in p && '\\' !in p
    && (p == "/" || forall s :: s in Split(Trim(p)[1..]) ==> !BadSegment(s))
  }

  /** NormalizeResourcePath */
  function Normalize(p: string): Result<string> {
    if ValidPath(p) then Success(if p == "/" then p else Trim(p)) else Failure
  }

  method NormalizePath(p: string) returns (r: Result<string>)
    ensures r == Normalize(p)
  {
    if p == "" || p[0] != '/' || '\0' in p || '\\' in p { return Failure; }
    if p == "/" { return Success("/"); }
    var trimmed := Trim(p);
    var segments := Split(trimmed[1..]);
    for i := 0 to |segments|
      invariant forall s :: s in segments[..i] ==> !BadSegment(s)
    {
      if BadSegment(segments[i]) { return Failure; }
    }
    return Success(trimmed);
  }

  /** The segments that a valid path names; the root names none. */
  function Segments(p: string): seq<string>
    requires ValidPath(p)
  {
    if p == "/" then [] else Split(Trim(p)[1..])
  }

  predicate StartsWith(s: string, prefix: string) { |prefix| <= |s| && s[..|prefix|] == prefix }

  /** ResourcePathMatches: a test on strings. */
  predicate Matches(pathPrefix: string, requested: string) {
    var a, b := Normalize(pathPrefix), Normalize(requested);
    && a.Success? && b.Success?
    && (a.value == "/" || b.value == a.value || StartsWith(b.value, a.value + "/"))
  }

  predicate IsInitial(a: seq<string>, b: seq<string>) { |a| <= |b| && b[..|a|] == a }

  /* ---- The string test is the segment prefix ---- */

  ghost predicate AllSlashFree(a: seq<string>) { forall i :: 0 <= i < |a| ==> SlashFree(a[i]) }

  /** Slash-free heads before a slash, or before the end, are equal. */
  lemma HeadsAgree(h: string, x: string, k: string, y: string)
    requires SlashFree(h) && SlashFree(k)
    requires x != "" && x[0] == '/' && (y == "" || y[0] == '/')
    requires StartsWith(k + y, h + x)
    ensures h == k && StartsWith(y, x)
  {
    var s := k + y;
    assert forall i :: 0 <= i < |h + x| ==> s[i] == (h + x)[i];
    assert forall i :: 0 <= i < |h| ==> h[i] != '/' && s[i] == h[i];
    assert forall i :: 0 <= i < |k| ==> k[i] != '/' && s[i] == k[i];
    assert s[|h|] == x[0] && (y != "" ==> s[|k|] == y[0]);
    assert |h| == |k|;
    assert h == s[..|h|] == k;
    assert y[..|x|] == s[|h|..|h + x|] == x;
  }

  /** A rendering starts another one, up to a slash, exactly when its segments
      are a proper initial part. */
  lemma {:induction false} RenderPrefix(a: seq<string>, b: seq<string>)
    requires AllSlashFree(a) && AllSlashFree(b)
    ensures StartsWith(Render(b), Render(a) + "/") <==> IsInitial(a, b) && |a| < |b|
  {
    if a == [] {
      assert Render(a) + "/" == "/";
      if b != [] { assert Render(b)[..1] == "/"; }
    } else if b != [] {
      var h, t, k, u := a[0], a[1..], b[0], b[1..];
      RenderPrefix(t, u);
      RenderHead(a, b);
      if h == k {
        assert Render(b)[1..] == k + Render(u);
      }
      assert IsInitial(a, b) <==> h == k && IsInitial(t, u) by { InitialCons(a, b); }
    }
  }

  lemma InitialCons(a: seq<string>, b: seq<string>)
    requires a != [] && b != []
    ensures IsInitial(a, b) <==> a[0] == b[0] && IsInitial(a[1..], b[1..])
  {
    if a[0] == b[0] && IsInitial(a[1..], b[1..]) {
      assert b[..|a|] == [b[0]] + b[1..][..|a| - 1];
      assert a == [a[0]] + a[1..];
    }
    if IsInitial(a, b) {
      assert b[1..][..|a| - 1] == b[..|a|][1..];
    }
  }

  lemma {:induction false} RenderHead(a: seq<string>, b: seq<string>)
    requires AllSlashFree(a) && AllSlashFree(b) && a != [] && b != []
    ensures StartsWith(Render(b), Render(a) + "/")
            <==> a[0] == b[0] && StartsWith(Render(b[1..]), Render(a[1..]) + "/")
  {
    var h, x, k, y := a[0], Render(a[1..]) + "/", b[0], Render(b[1..]);
    assert Render(a) + "/" == "/" + (h + x) && Render(b) == "/" + (k + y);
    PeelSlash(h + x, k + y);
    if StartsWith(k + y, h + x) { HeadsAgree(h, x, k, y); }
    if h == k && StartsWith(y, x) { assert (k + y)[..|h + x|] == h + y[..|x|]; }
  }

  lemma PeelSlash(a: string, b: string)
    ensures StartsWith("/" + b, "/" + a) <==> StartsWith(b, a)
  {
    if |a| <= |b| {
      assert ("/" + b)[..1 + |a|] == "/" + b[..|a|];
      assert ("/" + b[..|a|])[1..] == b[..|a|] && ("/" + a)[1..] == a;
    }
  }

  /** A rendering determines its segments. */
  lemma {:induction false} RenderInjective(a: seq<string>, b: seq<string>)
    requires AllSlashFree(a) && AllSlashFree(b) && Render(a) == Render(b)
    ensures a == b
  {
    if a != [] && b != [] {
      RenderHead(a, b);
      assert StartsWith(Render(b) + "/", Render(a) + "/");
      HeadsAgree(a[0], Render(a[1..]) + "/", b[0], Render(b[1..]) + "/") by {
        assert Render(a) + "/" == "/" + (a[0] + (Render(a[1..]) + "/"));
        assert Render(b) + "/" == "/" + (b[0] + (Render(b[1..]) + "/"));
        assert a[0] + (Render(a[1..]) + "/") == (Render(a) + "/")[1..];
      }
      assert Render(a[1..]) == Render(a)[1 + |a[0]|..] && Render(b[1..]) == Render(b)[1 + |b[0]|..];
      RenderInjective(a[1..], b[1..]);
      assert a == [a[0]] + a[1..] && b == [b[0]] + b[1..];
    }
  }

  /** The comparison form of a valid path renders its segments. */
  lemma NormalRenders(p: string)
    requires ValidPath(p)
    ensures AllSlashFree(Segments(p))
    ensures p == "/" ==> Segments(p) == []
    ensures p != "/" ==> Segments(p) != [] && Normalize(p).value == Render(Segments(p)) && Normalize(p).value != "/"
  {
    if p != "/" {
      var t := Trim(p);
      assert t[0] == '/' && t == "/" + t[1..];
      assert Split("") == [""] && BadSegment([""][0]);
      assert t[1..] != "";
    }
  }

  /** The string test holds exactly when both paths are valid and the segments
      of the prefix are an initial part of the segments of the path. */
  lemma MatchesExactly(pathPrefix: string, requested: string)
    ensures Matches(pathPrefix, requested) <==>
            ValidPath(pathPrefix) && ValidPath(requested) && IsInitial(Segments(pathPrefix), Segments(requested))
  {
    if ValidPath(pathPrefix) && ValidPath(requested) {
      NormalRenders(pathPrefix);
      NormalRenders(requested);
      var a, b := Segments(pathPrefix), Segments(requested);
      if pathPrefix != "/" {
        RenderPrefix(a, b);
        if requested == "/" {
          assert !StartsWith("/", Render(a) + "/");
        } else {
          if Render(a) == Render(b) { RenderInjective(a, b); }
          if IsInitial(a, b) && |a| == |b| { assert a == b; }
        }
      }
    }
  }

  /* ---- What a path is ---- */

  predicate Name(s: string) { s != "" && s != "." && s != ".." && '/' !in s && '\\' !in s && '\0' !in s }

  /** The path is written as these names, each after a slash, and perhaps one
      slash more; the root is a slash alone. */
  ghost predicate Names(p: string, names: seq<string>) {
    && (forall i :: 0 <= i < |names| ==> Name(names[i]))
    && if names == [] then p == "/" else p == Render(names) || p == Render(names) + "/"
  }

  /** No rendering has a character besides those of the names and slashes. */
  lemma {:induction false} RenderHolds(names: seq<string>, x: char)
    requires x != '/'
    ensures x in Render(names) <==> exists i :: 0 <= i < |names| && x in names[i]
  {
    if names != [] {
      RenderHolds(names[1..], x);
      if i :| 0 <= i < |names| && x in names[i] {
        if i > 0 { assert names[1..][i - 1] == names[i]; }
      }
    }
  }

  lemma {:induction false} RenderEnds(names: seq<string>)
    requires names != [] && forall i :: 0 <= i < |names| ==> Name(names[i])
    ensures Render(names) != "" && Render(names)[0] == '/' && Render(names) != "/"
    ensures Render(names)[|Render(names)| - 1] != '/'
  {
    var rest := Render(names[1..]);
    assert Name(names[0]);
    if names[1..] != [] {
      RenderEnds(names[1..]);
      assert Render(names)[|Render(names)| - 1] == rest[|rest| - 1];
    } else {
      assert Render(names) == "/" + names[0];
      assert names[0][|names[0]| - 1] in names[0];
    }
  }

  lemma SegmentsAreNames(p: string)
    requires ValidPath(p)
    ensures Names(p, Segments(p))
  {
    var names := Segments(p);
    NormalRenders(p);
    if p != "/" {
      assert p == Trim(p) || p == Trim(p) + "/";
      forall i | 0 <= i < |names| ensures Name(names[i]) {
        assert names[i] in names;
        RenderHolds(names, '\0');
        RenderHolds(names, '\\');
        assert '\0' !in Render(names) && '\\' !in Render(names);
      }
    }
  }

  lemma NamedIsValid(p: string, names: seq<string>)
    requires Names(p, names)
    ensures ValidPath(p) && Segments(p) == names
  {
    if names != [] {
      RenderEnds(names);
      assert Trim(p) == Render(names) && p != "/";
      RenderHolds(names, '\0');
      RenderHolds(names, '\\');
      var split := Split(Trim(p)[1..]);
      assert Render(split) == Render(names);
      RenderInjective(split, names);
    }
  }

  /** A path is accepted exactly when it names segments, and its normal form is
      their rendering; no path names two lists of them. */
  lemma NormalizeExactly(p: string)
    ensures Normalize(p).Success? <==> exists names :: Names(p, names)
    ensures forall names :: Names(p, names) ==>
              Normalize(p) == Success(if names == [] then "/" else Render(names))
    ensures forall a, b :: Names(p, a) && Names(p, b) ==> a == b
  {
    if ValidPath(p) { SegmentsAreNames(p); }
    forall names | Names(p, names)
      ensures ValidPath(p) && Segments(p) == names
      ensures Normalize(p) == Success(if names == [] then "/" else Render(names))
    {
      NamedIsValid(p, names);
      NormalRenders(p);
    }
  }

  /** One path matches another exactly when the names of the one begin those of
      the other. */
  lemma MatchesByName(a: string, b: string)
    ensures Matches(a, b) <==> exists x, y :: Names(a, x) && Names(b, y) && |x| <= |y| && y[..|x|] == x
  {
    MatchesExactly(a, b);
    if ValidPath(a) { SegmentsAreNames(a); }
    if ValidPath(b) { SegmentsAreNames(b); }
    if x, y :| Names(a, x) && Names(b, y) && |x| <= |y| && y[..|x|] == x {
      NamedIsValid(a, x);
      NamedIsValid(b, y);
    }
  }

  /* ---- Joint satisfiability ---- */

  /** A constraint of a certificate; `other` stands for the other types. */
  datatype Constraint = Resource(id: string, prefix: string) | Other(name: string)

  datatype Context = Context(hasResource: bool, id: string, path: string)

  datatype Verdict = Pass | Denied | Unverifiable

  /** evaluateConstraintV2, resource_path case. */
  function Evaluate(c: Constraint, x: Context): Verdict
    requires c.Resource?
  {
    if c.prefix != "" && !ValidPath(c.prefix) then Denied
    else if !x.hasResource || x.id == "" then Unverifiable
    else if x.id != c.id then Denied
    else if c.prefix == "" then Pass
    else if x.path == "" then Unverifiable
    else if !ValidPath(x.path) then Denied
    else if !Matches(c.prefix, x.path) then Denied
    else Pass
  }

  /** An absent prefix orders as the root. */
  function Effective(prefix: string): string { if prefix == "" then "/" else prefix }

  /** resourcePathsNested */
  predicate Nested(a: string, b: string) {
    Matches(Effective(a), Effective(b)) || Matches(Effective(b), Effective(a))
  }

  /** The j-th constraint is well formed, nests with every one before, and names
      the resource that was named first; an empty ID does not name one. */
  predicate Fits(cs: seq<Constraint>, j: int)
    requires 0 <= j < |cs|
  {
    cs[j].Resource? ==>
      && (cs[j].prefix != "" ==> ValidPath(cs[j].prefix))
      && forall i :: 0 <= i < j && cs[i].Resource? ==>
           (cs[i].id != "" ==> cs[i].id == cs[j].id) && Nested(cs[i].prefix, cs[j].prefix)
  }

  predicate ResourcesOk(cs: seq<Constraint>) {
    forall j :: 0 <= j < |cs| ==> Fits(cs, j)
  }

  /** validateDelegationIssuanceV2: a nested loop with an accumulated resource
      and prefix list. */
  method ValidateIssuance(issuedAt: int, expiresAt: int, cs: seq<Constraint>) returns (ok: bool)
    ensures ok == (issuedAt < expiresAt && expiresAt - issuedAt <= MAX_DELEGATION_LIFETIME && ResourcesOk(cs))
  {
    if issuedAt >= expiresAt || expiresAt - issuedAt > MAX_DELEGATION_LIFETIME { return false; }
    var resource := "";
    var prefixes: seq<string> := [];
    ghost var from: seq<int> := [];
    for i := 0 to |cs|
      invariant forall j :: 0 <= j < i ==> Fits(cs, j)
      invariant |from| == |prefixes|
      invariant forall k :: 0 <= k < |from| ==>
                  0 <= from[k] < i && cs[from[k]].Resource? && cs[from[k]].prefix == prefixes[k]
      invariant forall j :: 0 <= j < i && cs[j].Resource? ==> cs[j].prefix in prefixes
      invariant forall j :: 0 <= j < i && cs[j].Resource? ==> cs[j].id == "" || cs[j].id == resource
      invariant resource != "" ==> exists j :: 0 <= j < i && cs[j].Resource? && cs[j].id == resource
    {
      if cs[i].Other? { continue; }
      if cs[i].prefix != "" {
        var normal := NormalizePath(cs[i].prefix);
        if normal.Failure? { assert !Fits(cs, i); return false; }
      }
      if resource == "" {
        resource := cs[i].id;
      } else if cs[i].id != resource {
        assert !Fits(cs, i);
        return false;
      }
      var clash := FirstClash(prefixes, cs[i].prefix);
      if clash < |prefixes| {
        assert !Nested(cs[from[clash]].prefix, cs[i].prefix);
        assert !Fits(cs, i);
        return false;
      }
      prefixes := prefixes + [cs[i].prefix];
      from := from + [i];
    }
    return true;
  }

  /** The inner loop: the first earlier prefix that does not nest. */
  method FirstClash(prefixes: seq<string>, p: string) returns (k: nat)
    ensures k <= |prefixes| && forall m :: 0 <= m < k ==> Nested(prefixes[m], p)
    ensures k < |prefixes| ==> !Nested(prefixes[k], p)
  {
    k := 0;
    while k < |prefixes| && Nested(prefixes[k], p)
      invariant 0 <= k <= |prefixes|
      invariant forall m :: 0 <= m < k ==> Nested(prefixes[m], p)
    {
      k := k + 1;
    }
  }

  /** Some request passes every resource constraint. */
  ghost predicate Satisfiable(cs: seq<Constraint>) {
    exists x :: PassesAll(cs, x)
  }

  ghost predicate PassesAll(cs: seq<Constraint>, x: Context) {
    forall i :: 0 <= i < |cs| && cs[i].Resource? ==> Evaluate(cs[i], x) == Pass
  }

  lemma RootIsValid()
    ensures ValidPath("/") && Segments("/") == []
  {
  }

  /** Two initial parts of one path nest. */
  lemma InitialPartsNest(a: string, b: string, path: string)
    requires Matches(Effective(a), path) && Matches(Effective(b), path)
    ensures Nested(a, b)
  {
    MatchesExactly(Effective(a), path);
    MatchesExactly(Effective(b), path);
    MatchesExactly(Effective(a), Effective(b));
    MatchesExactly(Effective(b), Effective(a));
    var s, t, u := Segments(Effective(a)), Segments(Effective(b)), Segments(path);
    if |s| <= |t| { assert t[..|s|] == u[..|t|][..|s|] == u[..|s|]; }
    else { assert s[..|t|] == u[..|s|][..|t|] == u[..|t|]; }
  }

  lemma RootMatches(p: string)
    ensures Matches("/", p) <==> ValidPath(p)
  {
    RootIsValid();
    MatchesExactly("/", p);
  }

  /** What passes satisfies the issuer's check. */
  lemma PassingIsOk(cs: seq<Constraint>, x: Context)
    requires PassesAll(cs, x)
    ensures ResourcesOk(cs)
  {
    forall j | 0 <= j < |cs| ensures Fits(cs, j) {
      forall i | 0 <= i < j && cs[i].Resource? && cs[j].Resource?
        ensures cs[i].id == cs[j].id && Nested(cs[i].prefix, cs[j].prefix)
      {
        assert Evaluate(cs[i], x) == Pass && Evaluate(cs[j], x) == Pass;
        PassingPrefixesNest(cs[i].prefix, cs[j].prefix, x.path);
      }
    }
  }

  lemma PassingPrefixesNest(a: string, b: string, path: string)
    requires a == "" || Matches(a, path)
    requires b == "" || Matches(b, path)
    ensures Nested(a, b)
  {
    if a == "" || b == "" {
      RootMatches(Effective(a));
      RootMatches(Effective(b));
      RootIsValid();
    } else {
      InitialPartsNest(a, b, path);
    }
  }

  /** The deepest prefix of a pairwise nested list matches them all. */
  lemma {:induction false} Deepest(cs: seq<Constraint>) returns (path: string)
    requires ResourcesOk(cs)
    ensures ValidPath(path)
    ensures forall i :: 0 <= i < |cs| && cs[i].Resource? ==> Matches(Effective(cs[i].prefix), path)
    ensures path == "/" || exists i :: 0 <= i < |cs| && cs[i].Resource? && cs[i].prefix == path
  {
    if cs == [] {
      RootIsValid();
      return "/";
    }
    var front, c := cs[..|cs| - 1], cs[|cs| - 1];
    forall j | 0 <= j < |front| ensures Fits(front, j) { assert Fits(cs, j); }
    assert Fits(cs, |cs| - 1);
    var deepest := Deepest(front);
    if c.Other? { return deepest; }
    RootIsValid();
    RootMatches(deepest);
    RootMatches(Effective(c.prefix));
    var below := Matches(Effective(c.prefix), deepest);
    path := if below then deepest else Effective(c.prefix);
    if !below {
      assert Matches(deepest, path) by { DeeperMatches(cs, deepest); }
      forall i | 0 <= i < |front| && front[i].Resource? ensures Matches(Effective(front[i].prefix), path) {
        MatchesTransitive(Effective(front[i].prefix), deepest, path);
      }
      MatchesExactly(path, path);
    }
  }

  lemma DeeperMatches(cs: seq<Constraint>, deepest: string)
    requires cs != [] && ResourcesOk(cs) && cs[|cs| - 1].Resource? && ValidPath(deepest)
    requires deepest == "/" || exists i :: 0 <= i < |cs| - 1 && cs[i].Resource? && cs[i].prefix == deepest
    requires ValidPath(Effective(cs[|cs| - 1].prefix)) && !Matches(Effective(cs[|cs| - 1].prefix), deepest)
    ensures Matches(deepest, Effective(cs[|cs| - 1].prefix))
  {
    if deepest == "/" {
      RootMatches(Effective(cs[|cs| - 1].prefix));
    } else {
      var i :| 0 <= i < |cs| - 1 && cs[i].Resource? && cs[i].prefix == deepest;
      assert Fits(cs, |cs| - 1) && Nested(cs[i].prefix, cs[|cs| - 1].prefix);
    }
  }

  lemma MatchesTransitive(a: string, b: string, c: string)
    requires Matches(a, b) && Matches(b, c)
    ensures Matches(a, c)
  {
    MatchesExactly(a, b);
    MatchesExactly(b, c);
    MatchesExactly(a, c);
    var s, t, u := Segments(a), Segments(b), Segments(c);
    assert u[..|s|] == u[..|t|][..|s|];
  }

  /** What satisfies the issuer's check passes for the deepest prefix. */
  lemma OkIsPassing(cs: seq<Constraint>) returns (x: Context)
    requires ResourcesOk(cs) && AllNamed(cs)
    ensures PassesAll(cs, x)
  {
    var path := Deepest(cs);
    if i :| 0 <= i < |cs| && cs[i].Resource? {
      x := Context(true, cs[i].id, path);
      forall j | 0 <= j < |cs| && cs[j].Resource? ensures Evaluate(cs[j], x) == Pass {
        assert Fits(cs, i) && Fits(cs, j) && Matches(Effective(cs[j].prefix), path);
      }
    } else {
      x := Context(false, "", "");
    }
  }

  /** Every resource constraint names a resource, as decoding demands. */
  predicate AllNamed(cs: seq<Constraint>) {
    forall i :: 0 <= i < |cs| && cs[i].Resource? ==> cs[i].id != ""
  }

  /** The issuer accepts a set of named resource constraints exactly when some
      request passes all of them at evaluation; an unnamed one never passes. */
  lemma IssuerCheckIsSatisfiability(cs: seq<Constraint>)
    ensures ResourcesOk(cs) && AllNamed(cs) <==> Satisfiable(cs)
  {
    if ResourcesOk(cs) && AllNamed(cs) {
      var x := OkIsPassing(cs);
    }
    if Satisfiable(cs) {
      var x :| PassesAll(cs, x);
      PassingIsOk(cs, x);
    }
  }
}
