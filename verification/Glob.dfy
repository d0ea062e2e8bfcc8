/**
 scripts/check-test-globs.ts: the compiler from shell globs to anchored
 regular-expression text, against a language of globs that knows nothing of
 regular expressions.
 */
module Glob {
  import opened Basics
  import RE = RegExp

  datatype Piece =
    | Directories        // **/
    | Anything           // ** not followed by a slash
    | WithinSegment      // *
    | Exactly(c: char)   // every other character

  /** The glob read from left to right, the longest operator first. */
  function Pieces(glob: string): (ps: seq<Piece>)
    ensures WellFormed(ps)
  {
    if glob == "" then []
    else if glob[0] != '*' then [Exactly(glob[0])] + Pieces(glob[1..])
    else if |glob| == 1 || glob[1] != '*' then [WithinSegment] + Pieces(glob[1..])
    else if |glob| == 2 || glob[2] != '/' then [Anything] + Pieces(glob[2..])
    else [Directories] + Pieces(glob[3..])
  }

  predicate WellFormed(ps: seq<Piece>) {
    forall p | p in ps :: p.Exactly? ==> p.c != '*'
  }

  // ---------------------------------------------------------------------
  // What a glob means

  /** Zero or more directories, each a run of characters other than a slash
      and then its slash. */
  predicate AreDirectories(w: string)
    decreases |w|
  {
    w == "" || exists k: nat :: k < |w| && w[k] == '/' && '/' !in w[..k] && AreDirectories(w[k + 1..])
  }

  predicate PieceMatches(p: Piece, w: string) {
    match p
    case Directories => AreDirectories(w)
    case Anything => true
    case WithinSegment => '/' !in w
    case Exactly(c) => w == [c]
  }

  predicate OneLine(w: string) {
    forall c | c in w :: c !in RE.LINE_TERMINATORS
  }

  /** `w` is cut into one part per piece. With `dotted`, the parts of the two
      double-star pieces must also lie on one line, as `.` demands. */
  predicate Matches(ps: seq<Piece>, w: string, dotted: bool) {
    if ps == [] then w == ""
    else exists k: nat :: k <= |w| && PartMatches(ps[0], w[..k], dotted) && Matches(ps[1..], w[k..], dotted)
  }

  predicate PartMatches(p: Piece, w: string, dotted: bool) {
    PieceMatches(p, w) && (dotted && (p.Directories? || p.Anything?) ==> OneLine(w))
  }

  /** Directories are exactly the empty text and the texts that end in a slash. */
  lemma {:induction false} DirectoriesEndInSlash(w: string)
    ensures AreDirectories(w) <==> w == "" || w[|w| - 1] == '/'
    decreases |w|
  {
    forall k: nat | k < |w| && w[k] == '/'
      ensures AreDirectories(w[k + 1..]) <==> w[|w| - 1] == '/'
    {
      DirectoriesEndInSlash(w[k + 1..]);
    }
    if w != "" && w[|w| - 1] == '/' {
      var k := FirstSlash(w);
      assert AreDirectories(w[k + 1..]);
    }
  }

  function FirstSlash(w: string): (k: nat)
    requires '/' in w
    ensures k < |w| && w[k] == '/' && '/' !in w[..k]
  {
    if w[0] == '/' then 0 else
    assert w == [w[0]] + w[1..];
    var k := 1 + FirstSlash(w[1..]);
    assert w[..k] == [w[0]] + w[1..][..k - 1];
    k
  }

  // ---------------------------------------------------------------------
  // What the compiler emits

  const ESCAPED: string := "/.+?()[]{}^$|\\"

  function Emit(p: Piece): string {
    match p
    case Directories => "(?:.*/)?"
    case Anything => ".*"
    case WithinSegment => "[^/]*"
    case Exactly(c) => if c in ESCAPED then ['\\', c] else [c]
  }

  function EmitAll(ps: seq<Piece>): string {
    if ps == [] then "" else Emit(ps[0]) + EmitAll(ps[1..])
  }

  /** How the emitted text of a piece is meant to be read. */
  function Meant(p: Piece): RE.Term {
    match p
    case Directories =>
      RE.Term(RE.Group([RE.Term(RE.Dot, RE.Many), RE.Term(RE.Lit('/'), RE.Once)]), RE.Optional)
    case Anything => RE.Term(RE.Dot, RE.Many)
    case WithinSegment => RE.Term(RE.Class(true, {'/'}), RE.Many)
    case Exactly(c) => RE.Term(RE.Lit(c), RE.Once)
  }

  function MeantAll(ps: seq<Piece>): seq<RE.Term> {
    if ps == [] then [RE.Term(RE.End, RE.Once)] else [Meant(ps[0])] + MeantAll(ps[1..])
  }

  /** No emitted piece begins with a character that could quantify, or close,
      what stands before it. */
  lemma NothingIsReread(ps: seq<Piece>)
    requires WellFormed(ps)
    ensures (EmitAll(ps) + "$")[0] !in {'*', '+', '?', '{', ')'}
  {
    if ps != [] {
      assert Emit(ps[0]) != "";
      assert (EmitAll(ps) + "$")[0] == Emit(ps[0])[0];
    }
  }

  /** One term of the pattern grammar, read off the front of a text. */
  lemma ParseOne(t: string, node: RE.Node, q: RE.Quantifier, rest: string)
    requires t != "" && t[0] != ')'
    requires RE.ParseNode(t).Some? && RE.ParseNode(t).value.0 == node
    requires RE.ParseQuantifier(RE.ParseNode(t).value.1) == Some((q, rest))
    requires RE.MayQuantify(node, q)
    requires RE.ParseTerms(rest).Some?
    ensures RE.ParseTerms(t) == Some(([RE.Term(node, q)] + RE.ParseTerms(rest).value.0, RE.ParseTerms(rest).value.1))
  {
  }

  /** The inside of the directories group: `.*` and a slash, up to the `)`. */
  lemma ParseDirectoriesBody(rest: string)
    ensures RE.ParseTerms(".*/)" + rest) ==
            Some(([RE.Term(RE.Dot, RE.Many), RE.Term(RE.Lit('/'), RE.Once)], ")" + rest))
  {
    var t0, t1, t2 := ".*/)" + rest, "/)" + rest, ")" + rest;
    assert t0[1..] == "*/)" + rest && t0[1..][1..] == t1;
    assert t1[1..] == t2;
    assert RE.ParseTerms(t2) == Some(([], t2));
    var slash := RE.Term(RE.Lit('/'), RE.Once);
    ParseOne(t1, RE.Lit('/'), RE.Once, t2);
    assert [slash] + [] == [slash];
    ParseOne(t0, RE.Dot, RE.Many, t1);
    assert [RE.Term(RE.Dot, RE.Many)] + [slash] == [RE.Term(RE.Dot, RE.Many), slash];
  }

  lemma ParseDirectories(t: string, rest: string)
    requires t == Emit(Directories) + rest
    requires rest != "" && rest[0] != '?'
    requires RE.ParseTerms(rest).Some?
    ensures RE.ParseTerms(t) ==
            Some(([Meant(Directories)] + RE.ParseTerms(rest).value.0, RE.ParseTerms(rest).value.1))
  {
    ParseDirectoriesBody("?" + rest);
    hide RE.ParseTerms;
    assert t[3..] == ".*/)" + ("?" + rest);
    var after := ")" + ("?" + rest);
    assert after[1..] == "?" + rest && ("?" + rest)[1..] == rest;
    assert RE.ParseNode(t) == Some((Meant(Directories).node, "?" + rest));
    ParseOne(t, Meant(Directories).node, RE.Optional, rest);
  }

  lemma ParseStar(p: Piece, t: string, rest: string)
    requires p.Anything? || p.WithinSegment?
    requires t == Emit(p) + rest
    requires rest != "" && rest[0] != '?'
    requires RE.ParseTerms(rest).Some?
    ensures RE.ParseTerms(t) ==
            Some(([Meant(p)] + RE.ParseTerms(rest).value.0, RE.ParseTerms(rest).value.1))
  {
    hide RE.ParseTerms;
    var star := "*" + rest;
    assert star[1..] == rest;
    if p.Anything? {
      assert t[1..] == star;
    } else {
      var u := "/]*" + rest;
      var inner := "]*" + rest;
      assert t[2..] == u && u[1..] == inner && inner[1..] == star;
      assert RE.ParseClass(inner, {'/'}) == Some(({'/'}, star));
      assert {} + {'/'} == {'/'};
      assert RE.ParseClass(u, {}) == RE.ParseClass(inner, {} + {'/'});
    }
    assert RE.ParseNode(t) == Some((Meant(p).node, star));
    ParseOne(t, Meant(p).node, RE.Many, rest);
  }

  lemma ParseExactly(c: char, t: string, rest: string)
    requires c != '*' && t == Emit(Exactly(c)) + rest
    requires rest != "" && rest[0] !in {'*', '+', '?', '{'}
    requires RE.ParseTerms(rest).Some?
    ensures RE.ParseTerms(t) ==
            Some(([Meant(Exactly(c))] + RE.ParseTerms(rest).value.0, RE.ParseTerms(rest).value.1))
  {
    hide RE.ParseTerms;
    if c in ESCAPED {
      assert t[2..] == rest;
    } else {
      assert t[1..] == rest;
    }
    assert RE.ParseNode(t) == Some((RE.Lit(c), rest));
    ParseOne(t, RE.Lit(c), RE.Once, rest);
  }

  /** Each piece is read back as the one term that was meant. */
  lemma ParsePiece(p: Piece, rest: string)
    requires p.Exactly? ==> p.c != '*'
    requires rest != "" && rest[0] !in {'*', '+', '?', '{', ')'}
    requires RE.ParseTerms(rest).Some?
    ensures RE.ParseTerms(Emit(p) + rest) ==
            Some(([Meant(p)] + RE.ParseTerms(rest).value.0, RE.ParseTerms(rest).value.1))
  {
    hide RE.ParseTerms, Emit, Meant;
    match p
    case Directories => ParseDirectories(Emit(p) + rest, rest);
    case Exactly(c) => ParseExactly(c, Emit(p) + rest, rest);
    case _ => ParseStar(p, Emit(p) + rest, rest);
  }

  lemma {:induction false} ParsePieces(ps: seq<Piece>)
    requires WellFormed(ps)
    ensures RE.ParseTerms(EmitAll(ps) + "$") == Some((MeantAll(ps), ""))
  {
    if ps == [] {
      var t := EmitAll(ps) + "$";
      var end := [RE.Term(RE.End, RE.Once)];
      assert t == "$" && t[1..] == "" && end + [] == end;
      assert RE.ParseTerms("") == Some(([], ""));
      ParseOne(t, RE.End, RE.Once, "");
    } else {
      ParsePieces(ps[1..]);
      NothingIsReread(ps[1..]);
      ParsePiece(ps[0], EmitAll(ps[1..]) + "$");
      assert EmitAll(ps) + "$" == Emit(ps[0]) + (EmitAll(ps[1..]) + "$");
    }
  }

  /** The emitted text parses, and as what was meant: no literal becomes an
      operator and no operator a literal. */
  lemma TextParses(glob: string)
    ensures RE.Parse("^" + EmitAll(Pieces(glob)) + "$") ==
            Some([RE.Term(RE.Begin, RE.Once)] + MeantAll(Pieces(glob)))
  {
    var ps := Pieces(glob);
    var rest := EmitAll(ps) + "$";
    var t := "^" + EmitAll(ps) + "$";
    assert t == "^" + rest && t[1..] == rest;
    ParsePieces(ps);
    NothingIsReread(ps);
    ParseOne(t, RE.Begin, RE.Once, rest);
  }

  // ---------------------------------------------------------------------
  // The pattern matches the glob's language

  lemma CutAt(w: string, i: nat, k: nat)
    requires i <= k <= |w|
    ensures w[i..][..k - i] == w[i..k] && w[i..][k - i..] == w[k..]
  {
  }

  /** Whether the piece may stand for `w[i..k]`. */
  predicate Covers(p: Piece, w: string, i: nat, k: nat)
    requires k <= |w|
  {
    i <= k && PartMatches(p, w[i..k], true)
  }

  lemma MatchesByPosition(ps: seq<Piece>, w: string, i: nat)
    requires ps != [] && i <= |w|
    ensures Matches(ps, w[i..], true) <==>
            exists k: nat :: k <= |w| && Covers(ps[0], w, i, k) && Matches(ps[1..], w[k..], true)
  {
    hide PartMatches;
    var v := w[i..];
    if Matches(ps, v, true) {
      var k: nat :| k <= |v| && PartMatches(ps[0], v[..k], true) && Matches(ps[1..], v[k..], true);
      CutAt(w, i, i + k);
      assert Covers(ps[0], w, i, i + k);
    }
    if k: nat :| k <= |w| && Covers(ps[0], w, i, k) && Matches(ps[1..], w[k..], true) {
      CutAt(w, i, k);
      assert v[..k - i] == w[i..k] && v[k - i..] == w[k..];
    }
  }

  /** A star stops exactly where the piece it was emitted for may end. */
  lemma StarCovers(p: Piece, w: string, i: nat, k: nat)
    requires p.Anything? || p.WithinSegment?
    requires k <= |w|
    ensures RE.StarReaches(Meant(p).node, w, i, k) <==> Covers(p, w, i, k)
  {
    if i <= k {
      assert forall j | i <= j < k :: w[j] == w[i..k][j - i];
    }
  }

  lemma DirectoriesCover(w: string, i: nat, k: nat)
    requires k <= |w|
    ensures Covers(Directories, w, i, k) <==>
            i == k || (i < k && w[k - 1] == '/' && RE.StarReaches(RE.Dot, w, i, k - 1))
  {
    hide AreDirectories;
    if i <= k {
      DirectoriesEndInSlash(w[i..k]);
      assert forall j | i <= j < k :: w[j] == w[i..k][j - i];
      if i < k {
        assert w[i..k] == w[i..k - 1] + [w[k - 1]];
        assert forall j | i <= j < k - 1 :: w[j] == w[i..k - 1][j - i];
      }
    }
  }

  /** One piece: the term it was emitted for reaches exactly the positions the
      piece may end at. */
  lemma TermMatches(p: Piece, rest: seq<RE.Term>, w: string, i: nat)
    requires i <= |w|
    ensures RE.MatchHere([Meant(p)] + rest, w, i) <==>
            exists k: nat :: k <= |w| && Covers(p, w, i, k) && RE.MatchHere(rest, w, k)
  {
    hide PartMatches;
    var ts := [Meant(p)] + rest;
    assert ts[0] == Meant(p) && ts[1..] == rest;
    match p
    case Directories => DirectoriesTermMatches(rest, w, i);
    case Exactly(c) =>
      forall k: nat | k <= |w| ensures Covers(p, w, i, k) <==> k == i + 1 && w[i] == c {
        ExactlyCovers(c, w, i, k);
      }
      assert RE.MatchHere(ts, w, i) <==> i < |w| && w[i] == c && RE.MatchHere(rest, w, i + 1);
      assert i < |w| && w[i] == c ==> Covers(p, w, i, i + 1);
    case _ =>
      RE.StarMatches(Meant(p).node, rest, w, i);
      forall k: nat | k <= |w| ensures RE.StarReaches(Meant(p).node, w, i, k) <==> Covers(p, w, i, k) {
        StarCovers(p, w, i, k);
      }
  }

  lemma ExactlyCovers(c: char, w: string, i: nat, k: nat)
    requires k <= |w|
    ensures Covers(Exactly(c), w, i, k) <==> k == i + 1 && w[i] == c
  {
    if i <= k {
      assert |w[i..k]| == k - i;
      assert i < k ==> w[i..k][0] == w[i];
    }
  }

  lemma DirectoriesTermMatches(rest: seq<RE.Term>, w: string, i: nat)
    requires i <= |w|
    ensures RE.MatchHere([Meant(Directories)] + rest, w, i) <==>
            exists k: nat :: k <= |w| && Covers(Directories, w, i, k) && RE.MatchHere(rest, w, k)
  {
    hide PartMatches;
    var ts, slash := [Meant(Directories)] + rest, [RE.Term(RE.Lit('/'), RE.Once)] + rest;
    var body := Meant(Directories).node.body;
    assert ts[0] == Meant(Directories) && ts[1..] == rest;
    assert body + rest == [RE.Term(RE.Dot, RE.Many)] + slash;
    assert RE.MatchHere(ts, w, i) <==> RE.MatchHere(body + rest, w, i) || RE.MatchHere(rest, w, i);
    RE.StarMatches(RE.Dot, slash, w, i);
    assert slash[0] == RE.Term(RE.Lit('/'), RE.Once) && slash[1..] == rest;
    forall k: nat | k <= |w|
      ensures RE.MatchHere(slash, w, k) <==> k < |w| && w[k] == '/' && RE.MatchHere(rest, w, k + 1)
    {
    }
    forall k: nat | k <= |w|
      ensures Covers(Directories, w, i, k) <==>
              i == k || (i < k && w[k - 1] == '/' && RE.StarReaches(RE.Dot, w, i, k - 1))
    {
      DirectoriesCover(w, i, k);
    }
    if RE.MatchHere(body + rest, w, i) {
      var k: nat :| k <= |w| && RE.StarReaches(RE.Dot, w, i, k) && RE.MatchHere(slash, w, k);
      assert Covers(Directories, w, i, k + 1);
    }
    assert Covers(Directories, w, i, i);
    if k: nat :| k <= |w| && Covers(Directories, w, i, k) && RE.MatchHere(rest, w, k) {
      assert k > i ==> RE.MatchHere(slash, w, k - 1);
    }
  }

  lemma {:induction false} PiecesMatch(ps: seq<Piece>, w: string, i: nat)
    requires i <= |w|
    ensures RE.MatchHere(MeantAll(ps), w, i) <==> Matches(ps, w[i..], true)
    decreases |ps|
  {
    if ps == [] {
      var ts := MeantAll(ps);
      assert ts[0] == RE.Term(RE.End, RE.Once) && ts[1..] == [];
      assert RE.MatchHere(ts[1..], w, i);
    } else {
      TermMatches(ps[0], MeantAll(ps[1..]), w, i);
      MatchesByPosition(ps, w, i);
      forall k: nat | k <= |w|
        ensures RE.MatchHere(MeantAll(ps[1..]), w, k) <==> Matches(ps[1..], w[k..], true)
      {
        PiecesMatch(ps[1..], w, k);
      }
    }
  }

  /** Reading of a compiled glob, for every glob and every path. */
  ghost predicate Recognises(re: string, glob: string, dotted: bool, path: string) {
    RE.Parse(re).Some? && (RE.Test(RE.Parse(re).value, path) <==> Matches(Pieces(glob), path, dotted))
  }

  /** The emitted text accepts a path exactly when the path splits along the glob
      with everything a double star covers on one line. */
  lemma CompiledGlob(glob: string, path: string)
    ensures Recognises("^" + EmitAll(Pieces(glob)) + "$", glob, true, path)
  {
    TextParses(glob);
    var ps := Pieces(glob);
    var ts := [RE.Term(RE.Begin, RE.Once)] + MeantAll(ps);
    assert ts[0] == RE.Term(RE.Begin, RE.Once) && ts[1..] == MeantAll(ps);
    PiecesMatch(ps, path, 0);
    assert path[0..] == path;
    assert RE.Test(ts, path) <==> RE.MatchHere(ts, path, 0);
  }

  /** Lying on one line makes no difference to a path that does. */
  lemma {:induction false} OneLineIsNoRestriction(ps: seq<Piece>, w: string)
    requires OneLine(w)
    ensures Matches(ps, w, true) <==> Matches(ps, w, false)
    decreases |ps|
  {
    if ps != [] {
      forall k: nat | k <= |w|
        ensures PartMatches(ps[0], w[..k], true) <==> PartMatches(ps[0], w[..k], false)
        ensures Matches(ps[1..], w[k..], true) <==> Matches(ps[1..], w[k..], false)
      {
        assert OneLine(w[..k]) && OneLine(w[k..]);
        OneLineIsNoRestriction(ps[1..], w[k..]);
      }
    }
  }

  /** Whatever the pattern accepts is in the glob's language. */
  lemma {:induction false} DottedIsSound(ps: seq<Piece>, w: string)
    requires Matches(ps, w, true)
    ensures Matches(ps, w, false)
    decreases |ps|
  {
    if ps != [] {
      var k: nat :| k <= |w| && PartMatches(ps[0], w[..k], true) && Matches(ps[1..], w[k..], true);
      DottedIsSound(ps[1..], w[k..]);
    }
  }

  /** The glob `**` denotes every path; its pattern accepts those on one line. */
  lemma DoubleStar(path: string)
    ensures Matches(Pieces("**"), path, false)
    ensures Matches(Pieces("**"), path, true) <==> OneLine(path)
  {
    var ps := Pieces("**");
    assert ps == [Anything] && ps[1..] == [];
    var n := |path|;
    assert path[..n] == path && path[n..] == "";
    assert Matches(ps[1..], path[n..], false) && Matches(ps[1..], path[n..], true);
    assert PartMatches(Anything, path[..n], false);
    assert PartMatches(Anything, path[..n], true) <==> OneLine(path);
    forall k: nat | k <= n && Matches(ps[1..], path[k..], true) ensures k == n {
    }
  }

  /** On which paths the compiler can be trusted with every glob: exactly those
      without a line terminator. */
  lemma OneLineIsExact(path: string)
    ensures '\n' !in path && '\r' !in path && '\U{2028}' !in path && '\U{2029}' !in path <==>
            forall glob :: Recognises("^" + EmitAll(Pieces(glob)) + "$", glob, false, path)
  {
    NoLineTerminator(path);
    hide Recognises, Matches, OneLine;
    if OneLine(path) {
      forall glob ensures Recognises("^" + EmitAll(Pieces(glob)) + "$", glob, false, path) {
        CompilesTo(glob, "^" + EmitAll(Pieces(glob)) + "$");
      }
    } else {
      DoubleStar(path);
      CompiledGlob("**", path);
      OtherAnswer("^" + EmitAll(Pieces("**")) + "$", "**", path);
    }
  }

  /** The line terminators of section 12.3. */
  lemma NoLineTerminator(w: string)
    ensures OneLine(w) <==> '\n' !in w && '\r' !in w && '\U{2028}' !in w && '\U{2029}' !in w
  {
  }

  lemma OtherAnswer(re: string, glob: string, path: string)
    requires Recognises(re, glob, true, path)
    requires Matches(Pieces(glob), path, true) != Matches(Pieces(glob), path, false)
    ensures !Recognises(re, glob, false, path)
  {
  }

  lemma CompilesTo(glob: string, re: string)
    requires re == "^" + EmitAll(Pieces(glob)) + "$"
    ensures forall path :: Recognises(re, glob, true, path)
    ensures forall path | OneLine(path) :: Recognises(re, glob, false, path)
  {
    hide Recognises;
    forall path ensures Recognises(re, glob, true, path) {
      CompiledGlob(glob, path);
    }
    forall path | OneLine(path) ensures Recognises(re, glob, false, path) {
      OneLineIsNoRestriction(Pieces(glob), path);
      SameAnswer(re, glob, path);
    }
  }

  lemma SameAnswer(re: string, glob: string, path: string)
    requires Recognises(re, glob, true, path)
    requires Matches(Pieces(glob), path, true) <==> Matches(Pieces(glob), path, false)
    ensures Recognises(re, glob, false, path)
  {
  }

  /** The piece one turn of the compiler's loop is to consume and emit. */
  lemma NextPiece(glob: string, i: nat) returns (emitted: string, j: nat)
    requires i < |glob|
    ensures i < j <= |glob|
    ensures glob[i] != '*' ==> emitted == (if glob[i] in ESCAPED then ['\\', glob[i]] else [glob[i]]) && j == i + 1
    ensures glob[i] == '*' && (i + 1 == |glob| || glob[i + 1] != '*') ==> emitted == "[^/]*" && j == i + 1
    ensures glob[i] == '*' && i + 1 < |glob| && glob[i + 1] == '*' ==>
              if i + 2 < |glob| && glob[i + 2] == '/' then emitted == "(?:.*/)?" && j == i + 3
              else emitted == ".*" && j == i + 2
    ensures EmitAll(Pieces(glob[i..])) == emitted + EmitAll(Pieces(glob[j..]))
  {
    var left := glob[i..];
    emitted := Emit(Pieces(left)[0]);
    j := if left[0] != '*' || |left| == 1 || left[1] != '*' then i + 1
         else if |left| == 2 || left[2] != '/' then i + 2 else i + 3;
    assert glob[i..][j - i..] == glob[j..];
  }

  lemma Appended(before: string, emitted: string, after: string, re: string)
    requires re == before + emitted
    ensures before + (emitted + after) == re + after
  {
  }

  /** globToRegExp */
  method GlobToRegExp(glob: string) returns (re: string)
    ensures forall path :: Recognises(re, glob, true, path)
    ensures forall path | OneLine(path) :: Recognises(re, glob, false, path)
  {
    assert EmitAll(Pieces("")) == "";
    hide Recognises, Pieces, Emit, EmitAll;
    assert glob[0..] == glob;
    re := "";
    var i := 0;
    while i < |glob|
      invariant 0 <= i <= |glob|
      invariant re + EmitAll(Pieces(glob[i..])) == EmitAll(Pieces(glob))
    {
      ghost var emitted, j := NextPiece(glob, i);
      ghost var before, after := re, EmitAll(Pieces(glob[j..]));
      var c := glob[i];
      if c == '*' {
        if i + 1 < |glob| && glob[i + 1] == '*' {
          i := i + 1;
          if i + 1 < |glob| && glob[i + 1] == '/' {
            i := i + 1;
            re := re + "(?:.*/)?";
          } else {
            re := re + ".*";
          }
        } else {
          re := re + "[^/]*";
        }
      } else if c in ESCAPED {
        re := re + "\\" + [c];
      } else {
        re := re + [c];
      }
      i := i + 1;
      assert i == j;
      Appended(before, emitted, after, re);
    }
    assert glob[i..] == "";
    assert re == EmitAll(Pieces(glob)) by {
      assert re + "" == re;
    }
    re := "^" + re + "$";
    CompilesTo(glob, re);
  }
}
