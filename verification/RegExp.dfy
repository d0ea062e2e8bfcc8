/**
 The part of ECMA-262 section 22.2 that patterns without flags, captures,
 lookaround and back-references use: reading a pattern text, and matching it.
 A text outside this fragment does not parse here, so nothing is claimed of it.
 Characters stand for the code units a pattern without the `u` flag works on.
 */
module RegExp {
  import opened Basics

  datatype Quantifier = Once | Optional | Many

  datatype Node =
    | Begin                                // ^
    | End                                  // $
    | Lit(c: char)                         // PatternCharacter or IdentityEscape
    | Dot                                  // .
    | Class(negated: bool, cs: set<char>)  // [...] or [^...]
    | Group(body: seq<Term>)               // (?:...)

  datatype Term = Term(node: Node, q: Quantifier)

  // ---------------------------------------------------------------------
  // Section 22.2.1, Patterns

  /** SyntaxCharacter */
  const SYNTAX: set<char> := {'^', '$', '\\', '.', '*', '+', '?', '(', ')', '[', ']', '{', '}', '|'}

  /** The escapes every pattern may use for one literal character. */
  predicate IdentityEscape(c: char) {
    c in SYNTAX || c == '/'
  }

  /** ClassContents up to the closing bracket, without escapes, ranges or nesting. */
  function ParseClass(t: string, cs: set<char>): (r: Option<(set<char>, string)>)
    ensures r.Some? ==> |r.value.1| < |t|
  {
    if t == "" || t[0] in {'\\', '-', '['} then None
    else if t[0] == ']' then Some((cs, t[1..]))
    else ParseClass(t[1..], cs + {t[0]})
  }

  /** Quantifier, greedy only. */
  function ParseQuantifier(t: string): (r: Option<(Quantifier, string)>)
    ensures r.Some? ==> |r.value.1| <= |t|
  {
    if t == "" then Some((Once, t))
    else if t[0] in {'+', '{'} then None
    else if t[0] in {'*', '?'} then
      if |t| > 1 && t[1] == '?' then None
      else Some((if t[0] == '*' then Many else Optional, t[1..]))
    else Some((Once, t))
  }

  /** Assertion or Atom. */
  function ParseNode(t: string): (r: Option<(Node, string)>)
    requires t != ""
    ensures r.Some? ==> |r.value.1| < |t|
    decreases |t|, 0
  {
    var c := t[0];
    if c == '^' then Some((Begin, t[1..]))
    else if c == '$' then Some((End, t[1..]))
    else if c == '.' then Some((Dot, t[1..]))
    else if c == '\\' then
      if |t| > 1 && IdentityEscape(t[1]) then Some((Lit(t[1]), t[2..])) else None
    else if c == '[' then
      var negated := |t| > 1 && t[1] == '^';
      match ParseClass(t[if negated then 2 else 1..], {})
      case Some((cs, rest)) => Some((Class(negated, cs), rest))
      case None => None
    else if c == '(' then
      if |t| > 2 && t[1] == '?' && t[2] == ':' then
        match ParseTerms(t[3..])
        case Some((body, rest)) => if rest != "" then Some((Group(body), rest[1..])) else None
        case None => None
      else None
    else if c in SYNTAX then None
    else Some((Lit(c), t[1..]))
  }

  /** An assertion takes no quantifier, and a group is not repeated in this fragment. */
  predicate MayQuantify(n: Node, q: Quantifier) {
    q.Once? || !(n.Begin? || n.End? || (n.Group? && q.Many?))
  }

  /** Alternative: terms up to the end of the text or an unmatched `)`. */
  function ParseTerms(t: string): (r: Option<(seq<Term>, string)>)
    ensures r.Some? ==> |r.value.1| <= |t| && (r.value.1 == "" || r.value.1[0] == ')')
    decreases |t|, 1
  {
    if t == "" || t[0] == ')' then Some(([], t))
    else
      match ParseNode(t)
      case None => None
      case Some((node, rest)) =>
        match ParseQuantifier(rest)
        case None => None
        case Some((q, rest')) =>
          if !MayQuantify(node, q) then None
          else
            match ParseTerms(rest')
            case None => None
            case Some((terms, rest'')) => Some(([Term(node, q)] + terms, rest''))
  }

  function Parse(t: string): Option<seq<Term>>
  {
    match ParseTerms(t)
    case Some((terms, rest)) => if rest == "" then Some(terms) else None
    case None => None
  }

  // ---------------------------------------------------------------------
  // Section 22.2.2, Pattern Semantics

  const LINE_TERMINATORS: set<char> := {'\n', '\r', '\U{2028}', '\U{2029}'}

  /** CharacterSetMatcher. */
  predicate Accepts(n: Node, c: char)
  {
    match n
    case Lit(l) => c == l
    case Dot => c !in LINE_TERMINATORS
    case Class(negated, cs) => (c in cs) != negated
    case _ => false
  }

  function TermSize(t: Term): (n: nat)
    ensures n > 0
    decreases t
  {
    if t.node.Group? then 1 + Size(t.node.body) else 1
  }

  function Size(ts: seq<Term>): nat
    decreases ts
  {
    if ts == [] then 0 else TermSize(ts[0]) + Size(ts[1..])
  }

  lemma {:induction false} SizeOfConcat(a: seq<Term>, b: seq<Term>)
    ensures Size(a + b) == Size(a) + Size(b)
  {
    if a == [] {
      assert a + b == b;
    } else {
      assert (a + b)[1..] == a[1..] + b;
      SizeOfConcat(a[1..], b);
    }
  }

  /** Backtracking from position `i`: the first term against the input, the other
      terms as its continuation. The specification also lets an optional group
      that matched nothing fail; skipping the group then succeeds in its place. */
  predicate MatchHere(ts: seq<Term>, s: string, i: nat)
    requires i <= |s|
    decreases |s| - i, Size(ts)
  {
    if ts == [] then true
    else
      var n, q, rest := ts[0].node, ts[0].q, ts[1..];
      match n
      case Begin => i == 0 && MatchHere(rest, s, i)
      case End => i == |s| && MatchHere(rest, s, i)
      case Group(body) =>
        SizeOfConcat(body, rest);
        assert TermSize(ts[0]) == 1 + Size(body);
        MatchHere(body + rest, s, i) || (!q.Once? && MatchHere(rest, s, i))
      case _ =>
        var one := i < |s| && Accepts(n, s[i]);
        if q.Once? then one && MatchHere(rest, s, i + 1)
        else if q.Optional? then (one && MatchHere(rest, s, i + 1)) || MatchHere(rest, s, i)
        else (one && MatchHere(ts, s, i + 1)) || MatchHere(rest, s, i)
  }

  /** `RegExp.prototype.test`: some start position matches. */
  predicate Test(ts: seq<Term>, s: string)
  {
    exists i :: 0 <= i <= |s| && MatchHere(ts, s, i)
  }

  predicate StarReaches(n: Node, s: string, i: nat, k: nat)
    requires k <= |s|
  {
    i <= k && forall j | i <= j < k :: Accepts(n, s[j])
  }

  /** A greedy star over one-character nodes stops at any position up to which
      every character is accepted, whatever follows decides. */
  lemma StarMatches(n: Node, rest: seq<Term>, s: string, i: nat)
    requires i <= |s| && !n.Begin? && !n.End? && !n.Group?
    ensures MatchHere([Term(n, Many)] + rest, s, i) <==>
            exists k: nat :: k <= |s| && StarReaches(n, s, i, k) && MatchHere(rest, s, k)
  {
    if MatchHere([Term(n, Many)] + rest, s, i) {
      var k := StarStops(n, rest, s, i);
      assert StarReaches(n, s, i, k) && MatchHere(rest, s, k);
    }
    if k: nat :| k <= |s| && StarReaches(n, s, i, k) && MatchHere(rest, s, k) {
      StarGoesOn(n, rest, s, i, k);
    }
  }

  /** One unfolding of the star. */
  lemma StarUnfolds(n: Node, rest: seq<Term>, s: string, i: nat)
    requires i <= |s| && !n.Begin? && !n.End? && !n.Group?
    ensures MatchHere([Term(n, Many)] + rest, s, i) <==>
            (i < |s| && Accepts(n, s[i]) && MatchHere([Term(n, Many)] + rest, s, i + 1)) || MatchHere(rest, s, i)
  {
    var ts := [Term(n, Many)] + rest;
    assert ts[0] == Term(n, Many) && ts[1..] == rest;
  }

  lemma {:induction false} StarStops(n: Node, rest: seq<Term>, s: string, i: nat) returns (k: nat)
    requires i <= |s| && !n.Begin? && !n.End? && !n.Group?
    requires MatchHere([Term(n, Many)] + rest, s, i)
    ensures k <= |s| && StarReaches(n, s, i, k) && MatchHere(rest, s, k)
    decreases |s| - i
  {
    StarUnfolds(n, rest, s, i);
    hide MatchHere;
    k := i;
    if !MatchHere(rest, s, i) {
      k := StarStops(n, rest, s, i + 1);
    }
  }

  lemma {:induction false} StarGoesOn(n: Node, rest: seq<Term>, s: string, i: nat, k: nat)
    requires i <= |s| && !n.Begin? && !n.End? && !n.Group?
    requires k <= |s| && StarReaches(n, s, i, k) && MatchHere(rest, s, k)
    ensures MatchHere([Term(n, Many)] + rest, s, i)
    decreases |s| - i
  {
    StarUnfolds(n, rest, s, i);
    hide MatchHere;
    if i < k {
      StarGoesOn(n, rest, s, i + 1, k);
    }
  }
}
