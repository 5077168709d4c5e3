/** Path tokens, the files they own, and the overlap test between tokens (memory/streams.py). */
module Paths {
  import opened Wrappers
  import opened Text

  /** Whether `Path(token).suffix` is non-empty. Every result below holds for every such test. */
  type HasSuffix = string -> bool

  // ---------------------------------------------------------------------------------------------
  // Normalisation
  // ---------------------------------------------------------------------------------------------

  function Slashes(s: string): (r: string)
    ensures |r| == |s| && '\\' !in r
    ensures '\\' !in s ==> r == s
  {
    seq(|s|, i requires 0 <= i < |s| => if s[i] == '\\' then '/' else s[i])
  }

  function StripDotSlash(s: string): (r: string)
    ensures !("./" <= r) && |r| <= |s| && r == s[|s| - |r|..]
    ensures !("./" <= s) ==> r == s
  {
    if "./" <= s then StripDotSlash(s[2..]) else s
  }

  /** The relative path that a changed file name stands for. */
  function RelOf(path: string): string {
    StripDotSlash(Slashes(path))
  }

  /** The form of every path that the ownership test looks at. */
  predicate Normal(rel: string) {
    '\\' !in rel && !("./" <= rel)
  }

  lemma RelOfIsNormal(path: string)
    ensures Normal(RelOf(path))
    ensures Normal(path) ==> RelOf(path) == path
  {
  }

  function DotSlashes(k: nat): string {
    if k == 0 then "" else "./" + DotSlashes(k - 1)
  }

  /** Back slashes become slashes, then "./" goes from the front as often as it stands there, and nothing else. */
  lemma RelOfStrips(path: string) returns (s: string, k: nat)
    ensures |s| == |path| && forall i :: 0 <= i < |s| ==> s[i] == if path[i] == '\\' then '/' else path[i]
    ensures s == DotSlashes(k) + RelOf(path) && !("./" <= RelOf(path))
  {
    s := Slashes(path);
    k := Stripped(s);
    hide StripDotSlash, DotSlashes;
  }

  lemma {:induction false} Stripped(s: string) returns (k: nat)
    ensures s == DotSlashes(k) + StripDotSlash(s)
    decreases |s|
  {
    hide *;
    if "./" <= s {
      var n := Stripped(s[2..]);
      k := n + 1;
      StripsOne(s, n);
    } else {
      k := 0;
      StripsNone(s);
    }
  }

  lemma StripsOne(s: string, n: nat)
    requires "./" <= s && s[2..] == DotSlashes(n) + StripDotSlash(s[2..])
    ensures s == DotSlashes(n + 1) + StripDotSlash(s)
  {
    var dots, rest := DotSlashes(n), StripDotSlash(s[2..]);
    assert StripDotSlash(s) == rest;
    hide StripDotSlash;
    assert DotSlashes(n + 1) == "./" + dots;
    hide *;
    Behind("./", s, dots, rest);
  }

  lemma Behind(mark: string, s: string, a: string, b: string)
    requires mark <= s && s[|mark|..] == a + b
    ensures s == mark + a + b
  {
    assert s == mark + s[|mark|..];
  }

  lemma StripsNone(s: string)
    requires !("./" <= s)
    ensures s == DotSlashes(0) + StripDotSlash(s)
  {
    assert "" + s == s;
  }

  method NormRel(path: string) returns (rel: string)
    ensures rel == RelOf(path)
    ensures Normal(rel)
  {
    rel := Slashes(path);
    while "./" <= rel
      invariant StripDotSlash(rel) == RelOf(path)
      invariant '\\' !in rel
      decreases |rel|
    {
      rel := rel[2..];
    }
  }

  /** A stripped, forward-slashed token; `None` stands for the `ValueError` on a blank token. */
  function NormOwned(raw: string): (r: Option<string>)
    ensures r.Some? ==> IsToken(r.value)
  {
    var p := Slashes(Trim(raw));
    if p == "" then None else Some(p)
  }

  /** What `NormOwned` returns: the tokens stored in plans and leases. */
  predicate IsToken(t: string) {
    t != "" && '\\' !in t
  }

  /** The only tokens refused are the blank ones. */
  lemma OnlyBlanksAreRefused(raw: string)
    ensures NormOwned(raw).None? <==> forall k :: 0 <= k < |raw| ==> IsSpace(raw[k])
  {
    var left := TrimLeft(raw);
    hide IsSpace;
    if left == "" {
      assert forall k :: 0 <= k < |raw| ==> IsSpace(raw[k]);
    } else {
      assert raw[|raw| - |left|] == left[0];
    }
  }

  /** Normalising twice changes nothing, so a stored token is compared as it was written. */
  lemma NormOwnedIdempotent(raw: string)
    ensures NormOwned(raw).Some? ==> NormOwned(NormOwned(raw).value) == NormOwned(raw)
  {
    TrimIsTrimmed(raw);
    var p := Trim(raw);
    var q := Slashes(p);
    hide Text.Trim;
    if q != "" {
      SlashesStayTrimmed(p);
      TrimIsTrimmed(q);
    }
  }

  lemma SlashesStayTrimmed(p: string)
    requires Trimmed(p)
    ensures Trimmed(Slashes(p))
  {
    assert IsSpace('/') == IsSpace('\\') == false;
  }

  function RStripSlash(s: string): (r: string)
    ensures r <= s
    ensures r != "" ==> r[|r| - 1] != '/'
    ensures forall k :: |r| <= k < |s| ==> s[k] == '/'
  {
    if s != "" && s[|s| - 1] == '/' then RStripSlash(s[..|s| - 1]) else s
  }

  predicate EndsWithSlash(s: string) {
    s != "" && s[|s| - 1] == '/'
  }

  // ---------------------------------------------------------------------------------------------
  // Ownership of a path and overlap of two tokens
  // ---------------------------------------------------------------------------------------------

  /** One iteration of `path_is_owned`: token `own` owns the normalised path `rel`. */
  predicate Owns(sfx: HasSuffix, own: string, rel: string) {
    if EndsWithSlash(own) then
      var base := RStripSlash(own);
      rel == base || own <= rel || base + "/" <= rel
    else
      rel == own || (!sfx(own) && own + "/" <= rel)
  }

  /** `_owned_covers` on normalised tokens: the test that compares tokens, never paths. */
  predicate Covers(sfx: HasSuffix, a: string, b: string) {
    a == b ||
    ((EndsWithSlash(a) || !sfx(a)) &&
     var dir := if EndsWithSlash(a) then a else a + "/";
     b == RStripSlash(dir) || dir <= b)
  }

  /** The symmetric test that rejects two plans or two leases. */
  predicate Clash(sfx: HasSuffix, a: string, b: string) {
    Covers(sfx, a, b) || Covers(sfx, b, a)
  }

  /** The set of paths of `b` lies inside the set of paths of `a`. */
  ghost predicate Includes(sfx: HasSuffix, a: string, b: string) {
    forall rel :: Normal(rel) && Owns(sfx, b, rel) ==> Owns(sfx, a, rel)
  }

  ghost predicate SharePath(sfx: HasSuffix, a: string, b: string) {
    exists rel :: Normal(rel) && Owns(sfx, a, rel) && Owns(sfx, b, rel)
  }

  /** The tokens on which comparing tokens is as good as comparing sets of paths. */
  predicate Sound(t: string) {
    t == "./" || (!("./" <= t) && !(EndsWithSlash(t) && EndsWithSlash(t[..|t| - 1])))
  }

  // ---- canonical form of a sound token: a base path and a directory flag ----

  function Base(t: string): string {
    RStripSlash(t)
  }

  predicate IsDir(sfx: HasSuffix, t: string) {
    EndsWithSlash(t) || !sfx(t)
  }

  /** `rel` lies strictly inside the directory `dir`. */
  predicate Under(dir: string, rel: string) {
    dir + "/" <= rel
  }

  lemma UnderTransitive(p: string, q: string, r: string)
    requires Under(p, q) && (q == r || Under(q, r))
    ensures Under(p, r)
  {
    if q != r {
      assert q == r[..|q|];
      assert p + "/" == q[..|p| + 1] == r[..|p| + 1];
    }
  }

  /** Two directories around one path are nested. */
  lemma UnderNests(p: string, q: string, r: string)
    requires Under(p, r) && Under(q, r) && |p| <= |q|
    ensures p == q || Under(p, q)
  {
    assert p + "/" == r[..|p| + 1] && q + "/" == r[..|q| + 1];
    assert p == r[..|p|] && q == r[..|q|];
    if |p| < |q| {
      assert q[..|p| + 1] == r[..|p| + 1];
    }
  }

  lemma ChildIsUnder(dir: string)
    ensures Under(dir, dir + "/") && dir != dir + "/"
  {
    assert |dir + "/"| == |dir| + 1;
  }

  lemma DirOfBase(base: string)
    requires base != "." && !("./" <= base)
    ensures !("./" <= base + "/")
  {
    if |base| >= 2 {
      assert base[..2] == [base[0], base[1]];
      assert (base + "/")[0] == base[0] && (base + "/")[1] == base[1];
    } else if |base| == 1 {
      assert base == [base[0]];
      assert (base + "/")[0] == base[0];
    }
  }

  /** A sound token is its base, possibly followed by one slash. */
  lemma BaseForm(t: string)
    requires IsToken(t) && Sound(t)
    ensures t == Base(t) + (if EndsWithSlash(t) then "/" else "")
    ensures !EndsWithSlash(Base(t))
  {
    if EndsWithSlash(t) {
      var init := t[..|t| - 1];
      assert init + "/" == t;
      assert RStripSlash(t) == RStripSlash(init);
      assert !EndsWithSlash(init);
      assert RStripSlash(init) == init;
    } else {
      assert RStripSlash(t) == t;
    }
  }

  lemma PrefixKeepsDot(base: string, t: string)
    requires base <= t
    ensures "./" <= base ==> "./" <= t
    ensures t == "./" && base == "./" ==> EndsWithSlash(base)
  {
    if |base| >= 2 {
      assert base[..2] == t[..2];
    }
  }

  lemma BaseOfSound(t: string)
    requires IsToken(t) && Sound(t)
    ensures t == Base(t) + (if EndsWithSlash(t) then "/" else "")
    ensures Normal(Base(t)) && !EndsWithSlash(Base(t))
    ensures Base(t) != "." ==> Normal(Base(t) + "/")
  {
    BaseForm(t);
    var base := Base(t);
    hide RStripSlash, Base, EndsWithSlash;
    PrefixKeepsDot(base, t);
    if base != "." {
      DirOfBase(base);
    }
  }

  lemma OwnsCanonical(sfx: HasSuffix, t: string, rel: string)
    requires IsToken(t) && Sound(t) && Normal(rel)
    ensures Owns(sfx, t, rel) <==> rel == Base(t) || (IsDir(sfx, t) && Under(Base(t), rel))
  {
    BaseForm(t);
    if EndsWithSlash(t) {
      assert t == Base(t) + "/";
    } else {
      assert t == Base(t);
    }
    hide RStripSlash, Sound, Normal;
  }

  lemma RStripOneSlash(base: string)
    requires !EndsWithSlash(base)
    ensures RStripSlash(base) == base && RStripSlash(base + "/") == base
  {
    assert (base + "/")[..|base|] == base;
  }

  lemma TokenUnder(a: string, b: string, token: string)
    requires !EndsWithSlash(a) && (token == b || token == b + "/")
    ensures (token == a || a + "/" <= token) <==> (a == b || Under(a, b))
  {
    var dir := a + "/";
    if token == b + "/" {
      assert token[|token| - 1] == '/';
      assert token != a;
      assert b == token[..|b|];
      if dir <= token {
        assert dir == token[..|dir|];
        if |dir| <= |b| {
          assert dir == b[..|dir|];
        } else {
          assert dir == token;
          assert dir[..|a|] == token[..|b|];
        }
      }
      if Under(a, b) {
        assert dir == b[..|dir|] == token[..|dir|];
      }
    }
  }

  lemma CoversCanonical(sfx: HasSuffix, a: string, b: string)
    requires IsToken(a) && Sound(a) && IsToken(b) && Sound(b)
    ensures Covers(sfx, a, b) <==> a == b || (IsDir(sfx, a) && (Base(a) == Base(b) || Under(Base(a), Base(b))))
  {
    BaseForm(a);
    BaseForm(b);
    RStripOneSlash(Base(a));
    hide RStripSlash, Base, Sound, IsToken;
    assert EndsWithSlash(a) ==> a == Base(a) + "/";
    assert !EndsWithSlash(a) ==> a == Base(a);
    assert b == Base(b) || b == Base(b) + "/";
    TokenUnder(Base(a), Base(b), b);
    hide Under;
  }

  // ---------------------------------------------------------------------------------------------
  // Comparing tokens against comparing sets of paths
  // ---------------------------------------------------------------------------------------------

  lemma SomePathOf(sfx: HasSuffix, t: string) returns (rel: string)
    requires IsToken(t) && Sound(t)
    ensures rel == Base(t) && Normal(rel) && Owns(sfx, t, rel)
  {
    BaseOfSound(t);
    rel := Base(t);
    OwnsCanonical(sfx, t, rel);
  }

  /** A path strictly inside a directory token; only the base "." has none. */
  lemma ChildPath(sfx: HasSuffix, t: string) returns (rel: string)
    requires IsToken(t) && Sound(t) && IsDir(sfx, t) && Base(t) != "."
    ensures rel != Base(t) && Normal(rel) && Owns(sfx, t, rel)
  {
    BaseOfSound(t);
    rel := Base(t) + "/";
    ChildIsUnder(Base(t));
    OwnsCanonical(sfx, t, rel);
  }

  lemma CoversImpliesIncludes(sfx: HasSuffix, a: string, b: string)
    requires IsToken(a) && Sound(a) && IsToken(b) && Sound(b)
    requires Covers(sfx, a, b)
    ensures Includes(sfx, a, b)
  {
    CoversCanonical(sfx, a, b);
    hide Covers, Sound, IsToken, Normal, Base, IsDir, Under;
    forall rel | Normal(rel) && Owns(sfx, b, rel)
      ensures Owns(sfx, a, rel)
    {
      OwnsCanonical(sfx, a, rel);
      OwnsCanonical(sfx, b, rel);
      hide Owns;
      if a != b && Under(Base(a), Base(b)) {
        UnderTransitive(Base(a), Base(b), rel);
      }
    }
  }

  lemma IncludesImpliesCovers(sfx: HasSuffix, a: string, b: string)
    requires IsToken(a) && Sound(a) && IsToken(b) && Sound(b) && !sfx(".")
    requires Includes(sfx, a, b)
    ensures Covers(sfx, a, b)
  {
    CoversCanonical(sfx, a, b);
    BaseOfSound(a);
    BaseOfSound(b);
    hide Covers, Owns, Sound, IsToken, Normal, Base, Under;
    var rel := SomePathOf(sfx, b);
    OwnsCanonical(sfx, a, rel);
    if Base(a) == Base(b) && !IsDir(sfx, a) && a != b {
      var child := ChildPath(sfx, b);
      OwnsCanonical(sfx, a, child);
    }
  }

  /** Comparing tokens answers the question about sets of paths, in both directions. */
  lemma CoversIffIncludes(sfx: HasSuffix, a: string, b: string)
    requires IsToken(a) && Sound(a) && IsToken(b) && Sound(b) && !sfx(".")
    ensures Covers(sfx, a, b) <==> Includes(sfx, a, b)
  {
    hide Covers, Includes;
    if Covers(sfx, a, b) {
      CoversImpliesIncludes(sfx, a, b);
    } else if Includes(sfx, a, b) {
      IncludesImpliesCovers(sfx, a, b);
    }
  }

  lemma SharedPathImpliesClash(sfx: HasSuffix, a: string, b: string, rel: string)
    requires IsToken(a) && Sound(a) && IsToken(b) && Sound(b)
    requires Normal(rel) && Owns(sfx, a, rel) && Owns(sfx, b, rel)
    ensures Clash(sfx, a, b)
  {
    OwnsCanonical(sfx, a, rel);
    OwnsCanonical(sfx, b, rel);
    CoversCanonical(sfx, a, b);
    CoversCanonical(sfx, b, a);
    BaseOfSound(a);
    BaseOfSound(b);
    hide Covers, Owns, Sound, IsToken, Normal, Base, Under;
    if rel != Base(a) && rel != Base(b) {
      if |Base(a)| <= |Base(b)| {
        UnderNests(Base(a), Base(b), rel);
      } else {
        UnderNests(Base(b), Base(a), rel);
      }
    }
  }

  /** Two tokens own a common path exactly when one covers the other. */
  lemma ClashIffSharePath(sfx: HasSuffix, a: string, b: string)
    requires IsToken(a) && Sound(a) && IsToken(b) && Sound(b)
    ensures Clash(sfx, a, b) <==> SharePath(sfx, a, b)
  {
    hide Covers, Owns, Sound, IsToken, Normal, Base;
    if Clash(sfx, a, b) {
      var inner, outer := if Covers(sfx, a, b) then b else a, if Covers(sfx, a, b) then a else b;
      CoversImpliesIncludes(sfx, outer, inner);
      var rel := SomePathOf(sfx, inner);
      assert Owns(sfx, outer, rel);
    } else if SharePath(sfx, a, b) {
      var rel :| Normal(rel) && Owns(sfx, a, rel) && Owns(sfx, b, rel);
      SharedPathImpliesClash(sfx, a, b, rel);
    }
  }

  /** `Covers` agrees with inclusion between `t` and every sound token. */
  ghost predicate Faithful(sfx: HasSuffix, t: string) {
    forall b :: IsToken(b) && Sound(b) ==>
      (Covers(sfx, t, b) <==> Includes(sfx, t, b)) && (Covers(sfx, b, t) <==> Includes(sfx, b, t))
  }

  lemma DotTokenOwnsNothing(sfx: HasSuffix, t: string, rel: string)
    requires "./" <= t && RStripSlash(t) != "." && Normal(rel)
    ensures !Owns(sfx, t, rel)
  {
    var base := RStripSlash(t);
    assert base == t[..|base|];
    assert base != "" ==> base[0] == '.';
    if |base| >= 2 {
      assert base[..2] == "./";
    }
  }

  /**
   * The syntactic condition is exact: a token behaves as a set of paths under the overlap test if
   * and only if it neither starts with "./" (the token "./" itself apart) nor ends in two slashes.
   */
  lemma SoundIffFaithful(sfx: HasSuffix, t: string)
    requires IsToken(t) && !sfx(".")
    ensures Sound(t) <==> Faithful(sfx, t)
  {
    if Sound(t) {
      forall b | IsToken(b) && Sound(b)
        ensures (Covers(sfx, t, b) <==> Includes(sfx, t, b)) && (Covers(sfx, b, t) <==> Includes(sfx, b, t))
      {
        CoversIffIncludes(sfx, t, b);
        CoversIffIncludes(sfx, b, t);
      }
    } else {
      var b := UnsoundWitness(sfx, t);
    }
  }

  lemma UnsoundWitness(sfx: HasSuffix, t: string) returns (b: string)
    requires IsToken(t) && !Sound(t) && !sfx(".")
    ensures IsToken(b) && Sound(b)
    ensures (!Covers(sfx, t, b) && Includes(sfx, t, b)) || (!Covers(sfx, b, t) && Includes(sfx, b, t))
  {
    if !("./" <= t) {
      b := DoubleSlashWitness(sfx, t);
    } else if RStripSlash(t) != "." {
      b := DotPrefixWitness(sfx, t);
    } else {
      b := DotSlashesWitness(sfx, t);
    }
  }

  /** "./x" owns nothing, so "c" includes it without covering it. */
  lemma DotPrefixWitness(sfx: HasSuffix, t: string) returns (b: string)
    requires IsToken(t) && "./" <= t && RStripSlash(t) != "."
    ensures IsToken(b) && Sound(b) && !Covers(sfx, b, t) && Includes(sfx, b, t)
  {
    b := "c";
    RStripOneSlash("c");
    forall rel | Normal(rel)
      ensures !Owns(sfx, t, rel)
    {
      DotTokenOwnsNothing(sfx, t, rel);
    }
    hide RStripSlash, Owns;
    assert t[0] == '.';
  }

  /** ".//" owns "." as "./" does, but does not cover "./". */
  lemma DotSlashesWitness(sfx: HasSuffix, t: string) returns (b: string)
    requires IsToken(t) && !Sound(t) && "./" <= t && RStripSlash(t) == "."
    ensures IsToken(b) && Sound(b) && !Covers(sfx, t, b) && Includes(sfx, t, b)
  {
    b := "./";
    RStripOneSlash(".");
    assert b == "." + "/";
    hide RStripSlash;
    assert |t| > 2;
  }

  lemma DoubleSlashWitness(sfx: HasSuffix, t: string) returns (b: string)
    requires IsToken(t) && !("./" <= t) && |t| >= 2 && t[|t| - 1] == '/' && t[|t| - 2] == '/'
    ensures IsToken(b) && Sound(b) && b == RStripSlash(t) + "/x"
    ensures !Covers(sfx, t, b) && Includes(sfx, t, b)
  {
    var base := RStripSlash(t);
    b := base + "/x";
    assert |base| + 2 <= |t| && base == t[..|base|];
    hide RStripSlash;
    var dir := base + "/";
    assert b[|base| + 1] == 'x' && t[|base| + 1] == '/';
    assert b[|b| - 1] == 'x';
    assert |base| > 0 ==> b[..2] == t[..2];
    assert base == "" ==> b[0] == '/';
    assert '\\' !in base;
    assert dir <= b;
    forall rel | Normal(rel) && Owns(sfx, b, rel)
      ensures Owns(sfx, t, rel)
    {
      assert b <= rel by {
        if b != rel { assert b <= b + "/"; }
      }
      assert dir == b[..|dir|] == rel[..|dir|];
    }
  }

  /** What goes wrong outside the condition: two disjointness-checked tokens that share a file. */
  lemma DoubleSlashMissesOverlap(sfx: HasSuffix)
    ensures !Clash(sfx, "src//", "src/a") && SharePath(sfx, "src//", "src/a")
  {
    assert RStripSlash("src//"[..4]) == "src";
    assert RStripSlash("src//") == "src";
    assert "src/a"[0] == 's';
    assert Normal("src/a") && Owns(sfx, "src//", "src/a") && Owns(sfx, "src/a", "src/a");
    assert RStripSlash("src/a/"[..5]) == "src/a";
    assert "src//"[4] == '/' && "src/a"[4] == 'a';
  }

  // ---- which tokens let a shared file through the overlap test ----

  /** The overlap test never misses a path that the token shares with another such token. */
  predicate Safe(t: string) {
    Sound(t) || "./" <= t
  }

  /** A token that starts with "./" owns the directory itself or nothing. */
  lemma DotTokenOwnsDot(sfx: HasSuffix, t: string, rel: string)
    requires IsToken(t) && "./" <= t && Normal(rel) && Owns(sfx, t, rel)
    ensures RStripSlash(t) == "." && EndsWithSlash(t) && rel == "."
  {
    if RStripSlash(t) != "." {
      DotTokenOwnsNothing(sfx, t, rel);
    } else {
      assert "." + "/" == "./";
    }
  }

  lemma SlashTokenOwnsNoDot(sfx: HasSuffix, t: string)
    requires IsToken(t) && Sound(t) && !("./" <= t) && EndsWithSlash(t)
    ensures !Owns(sfx, t, ".")
  {
    BaseForm(t);
    assert "." + "/" == "./" && |t| == |Base(t)| + 1;
  }

  /** A token of the other kind owns the directory itself only if it is ".". */
  lemma PlainTokenOwnsDot(sfx: HasSuffix, t: string)
    requires IsToken(t) && Sound(t) && !("./" <= t) && Owns(sfx, t, ".")
    ensures t == "."
  {
    if EndsWithSlash(t) {
      SlashTokenOwnsNoDot(sfx, t);
    }
  }

  /** Two tokens of slashes behind a dot cover one another, and both cover ".". */
  lemma DotTokensClash(sfx: HasSuffix, t: string, other: string)
    requires "./" <= t && RStripSlash(t) == "." && EndsWithSlash(t)
    requires other == "." || ("./" <= other && RStripSlash(other) == "." && EndsWithSlash(other))
    ensures Clash(sfx, t, other)
  {
    if other != "." {
      assert forall k :: 1 <= k < |t| ==> t[k] == '/';
      assert forall k :: 1 <= k < |other| ==> other[k] == '/';
      assert t[0] == other[0];
      hide RStripSlash;
      if |t| <= |other| {
        assert t == other[..|t|];
      } else {
        assert other == t[..|other|];
      }
    }
  }

  /** A path that two safe tokens share makes them clash. */
  lemma SafeSharedPathClashes(sfx: HasSuffix, a: string, b: string, rel: string)
    requires IsToken(a) && Safe(a) && IsToken(b) && Safe(b)
    requires Normal(rel) && Owns(sfx, a, rel) && Owns(sfx, b, rel)
    ensures Clash(sfx, a, b)
  {
    hide Owns, Covers, Normal, RStripSlash;
    if "./" <= a {
      DotTokenOwnsDot(sfx, a, rel);
      if "./" <= b {
        DotTokenOwnsDot(sfx, b, rel);
      } else {
        PlainTokenOwnsDot(sfx, b);
      }
      DotTokensClash(sfx, a, b);
    } else if "./" <= b {
      DotTokenOwnsDot(sfx, b, rel);
      PlainTokenOwnsDot(sfx, a);
      DotTokensClash(sfx, b, a);
    } else {
      SharedPathImpliesClash(sfx, a, b, rel);
    }
  }

  /** Some safe token shares a path with `t` without clashing with it. */
  ghost predicate Misses(sfx: HasSuffix, t: string) {
    exists b :: IsToken(b) && Safe(b) && SharePath(sfx, t, b) && !Clash(sfx, t, b)
  }

  /** An unsafe token shares the file "x" of its directory with a token that it does not clash with. */
  lemma UnsafeMisses(sfx: HasSuffix, t: string) returns (b: string)
    requires IsToken(t) && !Safe(t)
    ensures IsToken(b) && Safe(b) && SharePath(sfx, t, b) && !Clash(sfx, t, b)
    ensures b == RStripSlash(t) + "/x"
  {
    b := DoubleSlashWitness(sfx, t);
    var base := RStripSlash(t);
    assert b == base + "/x";
    assert |base| + 2 <= |t| && t[|base| + 1] == '/' && b[|base| + 1] == 'x';
    assert !EndsWithSlash(b);
    assert b <= b + "/" && b != t;
    assert (b + "/")[|base| + 1] == 'x';
    RStripOneSlash(b);
    hide RStripSlash;
    var rel := SomePathOf(sfx, b);
    assert Owns(sfx, t, rel);
  }

  /**
   * The overlap test is complete for a token exactly when it does not end in two slashes behind
   * something else than "./": every other token lets some shared file through.
   */
  lemma SafeIff(sfx: HasSuffix, t: string)
    requires IsToken(t)
    ensures Safe(t) <==> !Misses(sfx, t)
  {
    if Safe(t) {
      forall b | IsToken(b) && Safe(b) && SharePath(sfx, t, b)
        ensures Clash(sfx, t, b)
      {
        var rel :| Normal(rel) && Owns(sfx, t, rel) && Owns(sfx, b, rel);
        SafeSharedPathClashes(sfx, t, b, rel);
      }
    } else {
      var b := UnsafeMisses(sfx, t);
    }
  }

  // ---------------------------------------------------------------------------------------------
  // Lists of tokens
  // ---------------------------------------------------------------------------------------------

  datatype PathError = EmptyOwnedPath

  /** `path_is_owned` on a normalised path: the first blank token before a match raises. */
  function OwnedBy(sfx: HasSuffix, rel: string, owned: seq<string>): Result<bool, PathError> {
    if owned == [] then Ok(false) else
    match NormOwned(owned[0])
    case None => Fail(EmptyOwnedPath)
    case Some(own) => if Owns(sfx, own, rel) then Ok(true) else OwnedBy(sfx, rel, owned[1..])
  }

  method PathIsOwned(sfx: HasSuffix, path: string, owned: seq<string>) returns (r: Result<bool, PathError>)
    ensures r == OwnedBy(sfx, RelOf(path), owned)
  {
    hide NormOwned, Owns, RelOf;
    var rel := NormRel(path);
    for i := 0 to |owned|
      invariant OwnedBy(sfx, rel, owned) == OwnedBy(sfx, rel, owned[i..])
    {
      assert owned[i..][1..] == owned[i + 1..];
      match NormOwned(owned[i]) {
        case None =>
          return Fail(EmptyOwnedPath);
        case Some(own) =>
          if Owns(sfx, own, rel) {
            return Ok(true);
          }
      }
    }
    return Ok(false);
  }

  predicate NoBlank(owned: seq<string>) {
    forall i :: 0 <= i < |owned| ==> NormOwned(owned[i]).Some?
  }

  /** On tokens that are not blank, a path is owned exactly when some token owns it. */
  lemma {:induction false} OwnedByMeaning(sfx: HasSuffix, rel: string, owned: seq<string>)
    requires NoBlank(owned)
    ensures OwnedBy(sfx, rel, owned).Ok?
    ensures OwnedBy(sfx, rel, owned).value <==>
            exists i :: 0 <= i < |owned| && Owns(sfx, NormOwned(owned[i]).value, rel)
  {
    hide NormOwned, Owns;
    if owned != [] {
      var rest := owned[1..];
      assert forall i :: 0 <= i < |rest| ==> rest[i] == owned[i + 1];
      OwnedByMeaning(sfx, rel, rest);
      if OwnedBy(sfx, rel, rest).value {
        var i :| 0 <= i < |rest| && Owns(sfx, NormOwned(rest[i]).value, rel);
        assert Owns(sfx, NormOwned(owned[i + 1]).value, rel);
      }
      forall i | 0 <= i < |owned| && Owns(sfx, NormOwned(owned[i]).value, rel)
        ensures OwnedBy(sfx, rel, owned).value
      {
        if i > 0 {
          assert Owns(sfx, NormOwned(rest[i - 1]).value, rel);
        }
      }
    }
  }

  /** The changed paths that the gate looks at: neither empty nor the directory itself. */
  predicate Gated(rel: string) {
    rel != "" && rel != "."
  }

  /** `files_outside_owned`. */
  function FilesOutside(sfx: HasSuffix, changed: seq<string>, owned: seq<string>)
    : Result<seq<string>, PathError>
  {
    if changed == [] then Ok([]) else
    var n := |changed| - 1;
    match FilesOutside(sfx, changed[..n], owned)
    case Fail(e) => Fail(e)
    case Ok(out) =>
      var rel := RelOf(changed[n]);
      if !Gated(rel) then Ok(out) else
      match OwnedBy(sfx, rel, owned)
      case Fail(e) => Fail(e)
      case Ok(isOwned) => Ok(if isOwned then out else out + [rel])
  }

  lemma {:induction false} FilesOutsideFailsEarly(sfx: HasSuffix, changed: seq<string>, owned: seq<string>, n: nat)
    requires n <= |changed| && FilesOutside(sfx, changed[..n], owned).Fail?
    ensures FilesOutside(sfx, changed, owned) == FilesOutside(sfx, changed[..n], owned)
  {
    hide RelOf, OwnedBy, Gated;
    if n < |changed| {
      assert changed[..|changed| - 1][..n] == changed[..n];
      FilesOutsideFailsEarly(sfx, changed[..|changed| - 1], owned, n);
    } else {
      assert changed[..n] == changed;
    }
  }

  method FilesOutsideOwned(sfx: HasSuffix, changed: seq<string>, owned: seq<string>)
    returns (r: Result<seq<string>, PathError>)
    ensures r == FilesOutside(sfx, changed, owned)
  {
    hide NormOwned, Owns, OwnedBy, RelOf, Gated, Normal;
    var out := [];
    for i := 0 to |changed|
      invariant FilesOutside(sfx, changed[..i], owned) == Ok(out)
    {
      assert changed[..i + 1][..i] == changed[..i];
      var rel := NormRel(changed[i]);
      if Gated(rel) {
        RelOfIsNormal(rel);
        var isOwned := PathIsOwned(sfx, rel, owned);
        if isOwned.Fail? {
          FilesOutsideFailsEarly(sfx, changed, owned, i + 1);
          return Fail(isOwned.error);
        }
        if !isOwned.value {
          out := out + [rel];
        }
      }
    }
    assert changed[..|changed|] == changed;
    return Ok(out);
  }

  /** The gate passes exactly when every changed path it looks at is owned by some token. */
  lemma {:induction false} GateMeaning(sfx: HasSuffix, changed: seq<string>, owned: seq<string>)
    requires NoBlank(owned)
    ensures FilesOutside(sfx, changed, owned).Ok?
    ensures forall rel :: rel in FilesOutside(sfx, changed, owned).value <==>
              exists i :: 0 <= i < |changed| && rel == RelOf(changed[i]) && rel != "" && rel != "." &&
                          OwnedBy(sfx, rel, owned) == Ok(false)
  {
    hide NormOwned, Owns, RelOf, OwnedBy;
    if changed != [] {
      var n := |changed| - 1;
      var init := changed[..n];
      GateMeaning(sfx, init, owned);
      var last := RelOf(changed[n]);
      OwnedByMeaning(sfx, last, owned);
      var before, after := FilesOutside(sfx, init, owned).value, FilesOutside(sfx, changed, owned).value;
      forall rel
        ensures rel in after <==>
          exists i :: 0 <= i < |changed| && rel == RelOf(changed[i]) && Gated(rel) &&
                      OwnedBy(sfx, rel, owned) == Ok(false)
      {
        assert rel in after <==>
               (rel in before || (rel == last && Gated(rel) && OwnedBy(sfx, rel, owned) == Ok(false)));
        if i :| 0 <= i < |changed| && rel == RelOf(changed[i]) && Gated(rel) &&
                OwnedBy(sfx, rel, owned) == Ok(false) {
          if i < n {
            assert rel == RelOf(init[i]);
          }
        }
        if rel in before {
          var i :| 0 <= i < |init| && rel == RelOf(init[i]) && Gated(rel) &&
                   OwnedBy(sfx, rel, owned) == Ok(false);
          assert rel == RelOf(changed[i]);
        }
      }
    }
  }

  predicate AllOwned(sfx: HasSuffix, changed: seq<string>, owned: seq<string>) {
    forall k :: 0 <= k < |changed| ==>
      var rel := RelOf(changed[k]); rel == "" || rel == "." || OwnedBy(sfx, rel, owned) == Ok(true)
  }

  /** The gate passes exactly when every changed path but "" and "." is owned. */
  lemma GatePassesIff(sfx: HasSuffix, changed: seq<string>, owned: seq<string>)
    requires NoBlank(owned)
    ensures FilesOutside(sfx, changed, owned).Ok?
    ensures FilesOutside(sfx, changed, owned) == Ok([]) <==> AllOwned(sfx, changed, owned)
  {
    GateMeaning(sfx, changed, owned);
    hide NormOwned, Owns, OwnedBy, RelOf, FilesOutside;
    var outside := FilesOutside(sfx, changed, owned).value;
    forall k | 0 <= k < |changed|
      ensures OwnedBy(sfx, RelOf(changed[k]), owned) in {Ok(true), Ok(false)}
    {
      OwnedByMeaning(sfx, RelOf(changed[k]), owned);
    }
    if outside == [] {
      forall k | 0 <= k < |changed|
        ensures var rel := RelOf(changed[k]); rel == "" || rel == "." || OwnedBy(sfx, rel, owned) == Ok(true)
      {
        assert RelOf(changed[k]) !in outside;
      }
    } else {
      assert outside[0] in outside;
    }
  }

  /** What a pairwise comparison of two token lists can report. */
  datatype Comparison = Apart | Overlap(oa: string, ob: string) | BlankToken

  predicate TokenPairApart(sfx: HasSuffix, oa: string, ob: string) {
    NormOwned(oa).Some? && NormOwned(ob).Some? && !Clash(sfx, NormOwned(oa).value, NormOwned(ob).value)
  }

  predicate ListsApart(sfx: HasSuffix, a: seq<string>, b: seq<string>) {
    forall i, j :: 0 <= i < |a| && 0 <= j < |b| ==> TokenPairApart(sfx, a[i], b[j])
  }

  lemma ClashSymmetric(sfx: HasSuffix, a: seq<string>, b: seq<string>)
    ensures ListsApart(sfx, a, b) <==> ListsApart(sfx, b, a)
  {
    forall i, j | 0 <= i < |a| && 0 <= j < |b|
      ensures TokenPairApart(sfx, a[i], b[j]) <==> TokenPairApart(sfx, b[j], a[i])
    {
    }
  }

  /** One token against a list. */
  function CompareOne(sfx: HasSuffix, oa: string, b: seq<string>): Comparison {
    if b == [] then Apart
    else if NormOwned(oa).None? || NormOwned(b[0]).None? then BlankToken
    else if Clash(sfx, NormOwned(oa).value, NormOwned(b[0]).value) then Overlap(oa, b[0])
    else CompareOne(sfx, oa, b[1..])
  }

  /** What the search of `_overlap_pair` comes upon first. */
  function Compare(sfx: HasSuffix, a: seq<string>, b: seq<string>): Comparison {
    if a == [] then Apart
    else
      var c := CompareOne(sfx, a[0], b);
      if c.Apart? then Compare(sfx, a[1..], b) else c
  }

  lemma {:induction false} CompareOneMeaning(sfx: HasSuffix, oa: string, b: seq<string>)
    ensures var c := CompareOne(sfx, oa, b);
            && (c.Apart? <==> forall j :: 0 <= j < |b| ==> TokenPairApart(sfx, oa, b[j]))
            && (c.Overlap? ==> c.oa == oa && c.ob in b && NormOwned(oa).Some? && NormOwned(c.ob).Some? &&
                               Clash(sfx, NormOwned(oa).value, NormOwned(c.ob).value))
            && (c.BlankToken? ==> NormOwned(oa).None? || !NoBlank(b))
  {
    hide NormOwned, Clash;
    if b != [] {
      var first, rest := b[0], b[1..];
      assert CompareOne(sfx, oa, b) == if NormOwned(oa).None? || NormOwned(first).None? then BlankToken
                                       else if TokenPairApart(sfx, oa, first) then CompareOne(sfx, oa, rest)
                                       else Overlap(oa, first);
      CompareOneMeaning(sfx, oa, rest);
      NoBlankSplits(first, rest);
      assert b == [first] + rest;
      hide CompareOne, TokenPairApart, NoBlank;
      assert (forall j :: 0 <= j < |b| ==> TokenPairApart(sfx, oa, b[j])) <==>
             TokenPairApart(sfx, oa, first) && forall j :: 0 <= j < |rest| ==> TokenPairApart(sfx, oa, rest[j]) by {
        assert forall j :: 0 <= j < |rest| ==> rest[j] == b[j + 1];
        assert forall j :: 1 <= j < |b| ==> b[j] == rest[j - 1];
      }
      assert TokenPairApart(sfx, oa, first) ==> NormOwned(oa).Some? && NormOwned(first).Some?;
    }
  }

  /** The search comes through exactly on lists that are apart; otherwise it names a clash or met a blank token. */
  lemma {:induction false} CompareMeaning(sfx: HasSuffix, a: seq<string>, b: seq<string>)
    ensures var c := Compare(sfx, a, b);
            && (c.Apart? <==> ListsApart(sfx, a, b))
            && (c.Overlap? ==> c.oa in a && c.ob in b && NormOwned(c.oa).Some? && NormOwned(c.ob).Some? &&
                               Clash(sfx, NormOwned(c.oa).value, NormOwned(c.ob).value))
            && (c.BlankToken? ==> !NoBlank(a) || !NoBlank(b))
  {
    if a != [] {
      var first, rest := a[0], a[1..];
      var c := CompareOne(sfx, first, b);
      assert Compare(sfx, a, b) == if c.Apart? then Compare(sfx, rest, b) else c;
      assert a == [first] + rest;
      hide *;
      CompareOneMeaning(sfx, first, b);
      CompareMeaning(sfx, rest, b);
      ApartSplits(sfx, first, rest, b);
      NoBlankSplits(first, rest);
    } else {
      assert ListsApart(sfx, a, b);
    }
  }

  lemma ApartSplits(sfx: HasSuffix, first: string, rest: seq<string>, b: seq<string>)
    ensures ListsApart(sfx, [first] + rest, b) <==>
            (forall j :: 0 <= j < |b| ==> TokenPairApart(sfx, first, b[j])) && ListsApart(sfx, rest, b)
  {
    hide TokenPairApart;
    var a := [first] + rest;
    assert a[0] == first && forall i :: 0 <= i < |rest| ==> a[i + 1] == rest[i];
    if ListsApart(sfx, a, b) {
      forall i, j | 0 <= i < |rest| && 0 <= j < |b|
        ensures TokenPairApart(sfx, rest[i], b[j])
      {
        assert TokenPairApart(sfx, a[i + 1], b[j]);
      }
      forall j | 0 <= j < |b|
        ensures TokenPairApart(sfx, first, b[j])
      {
        assert TokenPairApart(sfx, a[0], b[j]);
      }
    }
  }

  lemma NoBlankSplits(first: string, rest: seq<string>)
    ensures NoBlank([first] + rest) <==> NormOwned(first).Some? && NoBlank(rest)
  {
    hide NormOwned;
    var a := [first] + rest;
    assert a[0] == first && forall i :: 0 <= i < |rest| ==> a[i + 1] == rest[i];
  }

  /** The doubly nested search of `_overlap_pair` and of the inner loops of `validate_stream_plans`. */
  method OverlapPair(sfx: HasSuffix, a: seq<string>, b: seq<string>) returns (r: Comparison)
    ensures r == Compare(sfx, a, b) && (r.Apart? <==> ListsApart(sfx, a, b))
    ensures r.Overlap? ==> r.oa in a && r.ob in b && NormOwned(r.oa).Some? && NormOwned(r.ob).Some? &&
                           Clash(sfx, NormOwned(r.oa).value, NormOwned(r.ob).value)
    ensures r.BlankToken? ==> !NoBlank(a) || !NoBlank(b)
  {
    hide NormOwned, Covers, ListsApart, NoBlank;
    CompareMeaning(sfx, a, b);
    for i := 0 to |a|
      invariant Compare(sfx, a, b) == Compare(sfx, a[i..], b)
    {
      assert a[i..][0] == a[i] && a[i..][1..] == a[i + 1..];
      for j := 0 to |b|
        invariant CompareOne(sfx, a[i], b) == CompareOne(sfx, a[i], b[j..])
      {
        assert b[j..][0] == b[j] && b[j..][1..] == b[j + 1..];
        var oa, ob := NormOwned(a[i]), NormOwned(b[j]);
        if oa.None? || ob.None? {
          return BlankToken;
        }
        if Covers(sfx, oa.value, ob.value) || Covers(sfx, ob.value, oa.value) {
          return Overlap(a[i], b[j]);
        }
      }
    }
    return Apart;
  }

  // ---------------------------------------------------------------------------------------------
  // Stream plans
  // ---------------------------------------------------------------------------------------------

  datatype PlanSpec = PlanSpec(name: string, ownedPaths: seq<string>)

  datatype PlanError = NoStreams | DuplicateNames | PlansOverlap(i: nat, j: nat, oa: string, ob: string)
                     | BlankOwnedPath(i: nat, j: nat)

  predicate DistinctNames(plans: seq<PlanSpec>) {
    forall i, j :: 0 <= i < j < |plans| ==> plans[i].name != plans[j].name
  }

  predicate Accepted(sfx: HasSuffix, plans: seq<PlanSpec>) {
    && plans != []
    && DistinctNames(plans)
    && forall i, j :: 0 <= i < j < |plans| ==> ListsApart(sfx, plans[i].ownedPaths, plans[j].ownedPaths)
  }

  method ValidateStreamPlans(sfx: HasSuffix, plans: seq<PlanSpec>) returns (r: Result<(), PlanError>)
    ensures r.Ok? <==> Accepted(sfx, plans)
    ensures r.Fail? && r.error.NoStreams? ==> plans == []
    ensures r.Fail? && r.error.DuplicateNames? ==> !DistinctNames(plans)
    ensures r.Fail? && r.error.PlansOverlap? ==>
              var e := r.error;
              e.i < e.j < |plans| && e.oa in plans[e.i].ownedPaths && e.ob in plans[e.j].ownedPaths &&
              NormOwned(e.oa).Some? && NormOwned(e.ob).Some? &&
              Clash(sfx, NormOwned(e.oa).value, NormOwned(e.ob).value)
    ensures r.Fail? && r.error.BlankOwnedPath? ==>
              var e := r.error;
              e.i < e.j < |plans| && !(NoBlank(plans[e.i].ownedPaths) && NoBlank(plans[e.j].ownedPaths))
  {
    hide NormOwned, Clash, ListsApart, NoBlank;
    if |plans| < 1 {
      return Fail(NoStreams);
    }
    if !DistinctNames(plans) {
      return Fail(DuplicateNames);
    }
    for i := 0 to |plans|
      invariant forall k, l :: 0 <= k < i && k < l < |plans| ==>
                  ListsApart(sfx, plans[k].ownedPaths, plans[l].ownedPaths)
    {
      for j := i + 1 to |plans|
        invariant forall l :: i < l < j ==> ListsApart(sfx, plans[i].ownedPaths, plans[l].ownedPaths)
      {
        var c := OverlapPair(sfx, plans[i].ownedPaths, plans[j].ownedPaths);
        match c {
          case Apart =>
          case Overlap(oa, ob) => return Fail(PlansOverlap(i, j, oa, ob));
          case BlankToken => return Fail(BlankOwnedPath(i, j));
        }
      }
    }
    return Ok(());
  }

  /** Every token of the list is usable, and the overlap test is complete for it. */
  predicate SafeTokens(owned: seq<string>) {
    NoBlank(owned) && forall i :: 0 <= i < |owned| ==> Safe(NormOwned(owned[i]).value)
  }

  /** Two lists that the comparison keeps apart have no path in common. */
  lemma ApartListsShareNoPath(sfx: HasSuffix, a: seq<string>, b: seq<string>, rel: string)
    requires SafeTokens(a) && SafeTokens(b) && Normal(rel)
    requires ListsApart(sfx, a, b)
    ensures !(OwnedBy(sfx, rel, a) == Ok(true) && OwnedBy(sfx, rel, b) == Ok(true))
  {
    hide NormOwned, Owns, Clash, OwnedBy, Safe, Normal;
    OwnedByMeaning(sfx, rel, a);
    OwnedByMeaning(sfx, rel, b);
    if OwnedBy(sfx, rel, a) == Ok(true) && OwnedBy(sfx, rel, b) == Ok(true) {
      var i :| 0 <= i < |a| && Owns(sfx, NormOwned(a[i]).value, rel);
      var j :| 0 <= j < |b| && Owns(sfx, NormOwned(b[j]).value, rel);
      assert TokenPairApart(sfx, a[i], b[j]);
      SafeSharedPathClashes(sfx, NormOwned(a[i]).value, NormOwned(b[j]).value, rel);
    }
  }

  /** The condition on tokens cannot be dropped: with any other token, some accepted plans share a file. */
  lemma UnsafePlansShareAFile(sfx: HasSuffix, raw: string) returns (plans: seq<PlanSpec>, rel: string)
    requires NormOwned(raw).Some? && !Safe(NormOwned(raw).value)
    ensures |plans| == 2 && plans[0].ownedPaths == [raw] && Accepted(sfx, plans) && Normal(rel)
    ensures OwnedBy(sfx, rel, plans[0].ownedPaths) == Ok(true) && OwnedBy(sfx, rel, plans[1].ownedPaths) == Ok(true)
  {
    var t := NormOwned(raw).value;
    var b := UnsafeMisses(sfx, t);
    WitnessIsStored(raw, b);
    rel :| Normal(rel) && Owns(sfx, t, rel) && Owns(sfx, b, rel);
    plans := [PlanSpec("a", [raw]), PlanSpec("b", [b])];
    assert TokenPairApart(sfx, raw, b);
    hide *;
    OwnedByOne(sfx, rel, raw);
    OwnedByOne(sfx, rel, b);
    TwoPlansAccepted(sfx, raw, b);
  }

  lemma OwnedByOne(sfx: HasSuffix, rel: string, raw: string)
    requires NormOwned(raw).Some? && Owns(sfx, NormOwned(raw).value, rel)
    ensures OwnedBy(sfx, rel, [raw]) == Ok(true)
  {
    hide NormOwned, Owns, OwnedBy;
    assert NoBlank([raw]);
    OwnedByMeaning(sfx, rel, [raw]);
    assert Owns(sfx, NormOwned([raw][0]).value, rel);
  }

  lemma TwoPlansAccepted(sfx: HasSuffix, oa: string, ob: string)
    requires TokenPairApart(sfx, oa, ob)
    ensures Accepted(sfx, [PlanSpec("a", [oa]), PlanSpec("b", [ob])])
  {
    hide TokenPairApart;
    assert "a" != "b";
    assert ListsApart(sfx, [oa], [ob]);
  }

  lemma WitnessIsStored(raw: string, b: string)
    requires NormOwned(raw).Some? && IsToken(b) && b == RStripSlash(NormOwned(raw).value) + "/x"
    ensures NormOwned(b) == Some(b)
  {
    var t := NormOwned(raw).value;
    TrimIsTrimmed(raw);
    SlashesStayTrimmed(Trim(raw));
    hide Text.Trim, RStripSlash;
    assert b[|b| - 1] == 'x';
    assert b[0] == if RStripSlash(t) == "" then '/' else t[0];
    TrimIsTrimmed(b);
  }

  /** Accepted plans own pairwise disjoint sets of files. */
  lemma AcceptedPlansAreDisjoint(sfx: HasSuffix, plans: seq<PlanSpec>, i: nat, j: nat, path: string)
    requires Accepted(sfx, plans) && i < |plans| && j < |plans| && i != j
    requires SafeTokens(plans[i].ownedPaths) && SafeTokens(plans[j].ownedPaths)
    ensures !(OwnedBy(sfx, RelOf(path), plans[i].ownedPaths) == Ok(true) &&
              OwnedBy(sfx, RelOf(path), plans[j].ownedPaths) == Ok(true))
  {
    hide NormOwned, OwnedBy, RelOf, Normal, SafeTokens;
    RelOfIsNormal(path);
    ClashSymmetric(sfx, plans[i].ownedPaths, plans[j].ownedPaths);
    var lo, hi := if i < j then i else j, if i < j then j else i;
    ApartListsShareNoPath(sfx, plans[lo].ownedPaths, plans[hi].ownedPaths, RelOf(path));
  }

  /** Two streams whose changes both pass their gates changed no file in common. */
  lemma GatedChangesAreDisjoint(sfx: HasSuffix, plans: seq<PlanSpec>, i: nat, j: nat,
                                changedI: seq<string>, changedJ: seq<string>, p: nat, q: nat)
    requires Accepted(sfx, plans) && i < |plans| && j < |plans| && i != j
    requires SafeTokens(plans[i].ownedPaths) && SafeTokens(plans[j].ownedPaths)
    requires FilesOutside(sfx, changedI, plans[i].ownedPaths) == Ok([])
    requires FilesOutside(sfx, changedJ, plans[j].ownedPaths) == Ok([])
    requires p < |changedI| && q < |changedJ| && RelOf(changedI[p]) != "" && RelOf(changedI[p]) != "."
    ensures RelOf(changedI[p]) != RelOf(changedJ[q])
  {
    hide OwnedBy, RelOf, FilesOutside, Accepted, NormOwned, Safe;
    var ri, rj := RelOf(changedI[p]), RelOf(changedJ[q]);
    GateMeaning(sfx, changedI, plans[i].ownedPaths);
    GateMeaning(sfx, changedJ, plans[j].ownedPaths);
    OwnedByMeaning(sfx, ri, plans[i].ownedPaths);
    OwnedByMeaning(sfx, rj, plans[j].ownedPaths);
    assert OwnedBy(sfx, ri, plans[i].ownedPaths) == Ok(true) by {
      assert ri !in FilesOutside(sfx, changedI, plans[i].ownedPaths).value;
    }
    if ri == rj {
      assert rj !in FilesOutside(sfx, changedJ, plans[j].ownedPaths).value;
      AcceptedPlansAreDisjoint(sfx, plans, i, j, changedI[p]);
    }
  }
}
