/** The part of Python's `re.search` the intent catalog needs. Every pattern
    of the catalog is a sequence of literal text, `(.+)` groups and `(\d+)`
    groups, so a pattern is a list of tokens and `match.groups()` is the list
    of strings the group tokens consumed.

    `Match`/`Backtrack` are the backtracking matcher (greedy groups, longest
    first); `Reads` is the independent description of what a match is; the
    lemmas show that `Search` finds a match exactly when one exists, at the
    leftmost start, and picks the greediest reading there. */
module Regex {
  import opened Strings

  /** One piece of a pattern: literal text, `(.+)` or `(\d+)`. */
  datatype Token = Lit(text: string) | AnyPlus | DigitsPlus

  type Pattern = seq<Token>

  /** The characters a group token accepts: `.` is anything but a newline. */
  predicate Admits(t: Token, c: char) {
    match t
    case Lit(_) => false
    case AnyPlus => c != '\n'
    case DigitsPlus => IsDigit(c)
  }

  predicate AdmitsAll(t: Token, w: string) {
    forall k :: 0 <= k < |w| ==> Admits(t, w[k])
  }

  /** The number of capture groups of a pattern. */
  function Groups(p: Pattern): nat {
    if p == [] then 0 else (if p[0].Lit? then 0 else 1) + Groups(p[1..])
  }

  /** The longest run of characters `t` admits starting at `i`: how far a
      greedy group reaches before it has to backtrack. */
  function Span(t: Token, s: string, i: nat): (n: nat)
    requires i <= |s|
    ensures i + n <= |s|
    ensures forall k :: i <= k < i + n ==> Admits(t, s[k])
    ensures i + n == |s| || !Admits(t, s[i + n])
    decreases |s| - i
  {
    if i < |s| && Admits(t, s[i]) then 1 + Span(t, s, i + 1) else 0
  }

  /** `g` is one way for `p` to match `s` starting at `i`: each literal occurs
      there verbatim and each group consumes the non-empty run `g` lists for
      it, made of characters the group admits. */
  predicate Reads(p: Pattern, s: string, i: nat, g: seq<string>)
    decreases |p|
  {
    && i <= |s|
    && if p == [] then g == []
       else if p[0].Lit? then
         OccursAt(s, p[0].text, i) && Reads(p[1..], s, i + |p[0].text|, g)
       else
         && g != [] && g[0] != []
         && OccursAt(s, g[0], i) && AdmitsAll(p[0], g[0])
         && Reads(p[1..], s, i + |g[0]|, g[1..])
  }

  /** `g` takes groups at least as long as `h`, the first group deciding
      first: the order in which backtracking tries readings. */
  predicate AtLeastAsGreedy(g: seq<string>, h: seq<string>)
    decreases |h|
  {
    || h == []
    || (&& g != []
        && (|h[0]| < |g[0]| || (|h[0]| == |g[0]| && AtLeastAsGreedy(g[1..], h[1..]))))
  }

  /** The matcher anchored at `i`: the groups of the first reading that
      backtracking finds, if any. */
  function Match(p: Pattern, s: string, i: nat): Option<seq<string>>
    requires i <= |s|
    decreases |p|, 1, 0
  {
    if p == [] then Some([])
    else if p[0].Lit? then
      if OccursAt(s, p[0].text, i) then Match(p[1..], s, i + |p[0].text|) else None
    else
      Backtrack(p, s, i, Span(p[0], s, i))
  }

  /** A group at `i` tries the lengths `n`, `n - 1`, ..., `1` in turn. */
  function Backtrack(p: Pattern, s: string, i: nat, n: nat): Option<seq<string>>
    requires p != [] && !p[0].Lit? && i + n <= |s|
    decreases |p|, 0, n
  {
    if n == 0 then None
    else match Match(p[1..], s, i + n)
      case Some(g) => Some([s[i..i + n]] + g)
      case None => Backtrack(p, s, i, n - 1)
  }

  /** A match found by `re.search`: where it starts and `match.groups()`. */
  datatype Hit = Hit(start: nat, groups: seq<string>)

  function SearchFrom(p: Pattern, s: string, i: nat): Option<Hit>
    requires i <= |s|
    decreases |s| - i
  {
    match Match(p, s, i)
    case Some(g) => Some(Hit(i, g))
    case None => if i == |s| then None else SearchFrom(p, s, i + 1)
  }

  /** `re.search(p, s)`: start positions are tried from the left. */
  function Search(p: Pattern, s: string): Option<Hit> {
    SearchFrom(p, s, 0)
  }

  // ---------------------------------------------------------------- proofs

  /** A reading has exactly one string per capture group. */
  lemma {:induction false} ReadsGroups(p: Pattern, s: string, i: nat, g: seq<string>)
    requires Reads(p, s, i, g)
    ensures |g| == Groups(p)
    decreases |p|
  {
    if p != [] {
      if p[0].Lit? {
        ReadsGroups(p[1..], s, i + |p[0].text|, g);
      } else {
        ReadsGroups(p[1..], s, i + |g[0]|, g[1..]);
      }
    }
  }

  /** What the matcher returns is a reading. */
  lemma {:induction false} MatchSound(p: Pattern, s: string, i: nat)
    requires i <= |s|
    ensures var r := Match(p, s, i); r.Some? ==> Reads(p, s, i, r.value)
    decreases |p|, 1, 0
  {
    if p != [] {
      if p[0].Lit? {
        if OccursAt(s, p[0].text, i) {
          MatchSound(p[1..], s, i + |p[0].text|);
        }
      } else {
        BacktrackSound(p, s, i, Span(p[0], s, i));
      }
    }
  }

  lemma {:induction false} BacktrackSound(p: Pattern, s: string, i: nat, n: nat)
    requires p != [] && !p[0].Lit? && i + n <= |s|
    requires forall k :: i <= k < i + n ==> Admits(p[0], s[k])
    ensures var r := Backtrack(p, s, i, n); r.Some? ==> Reads(p, s, i, r.value)
    decreases |p|, 0, n
  {
    if n > 0 {
      MatchSound(p[1..], s, i + n);
      match Match(p[1..], s, i + n)
      case Some(g) =>
        var w := s[i..i + n];
        assert ([w] + g)[0] == w && ([w] + g)[1..] == g;
        assert AdmitsAll(p[0], w);
      case None =>
        BacktrackSound(p, s, i, n - 1);
    }
  }

  /** A run of admitted characters never reaches past the greedy span. */
  lemma {:induction false} SpanMaximal(t: Token, s: string, i: nat, m: nat)
    requires i + m <= |s|
    requires forall k :: i <= k < i + m ==> Admits(t, s[k])
    ensures m <= Span(t, s, i)
    decreases m
  {
    if m > 0 {
      SpanMaximal(t, s, i + 1, m - 1);
    }
  }

  /** Whenever some reading exists the matcher succeeds, and its reading is
      at least as greedy as every other one. */
  lemma {:induction false} MatchComplete(p: Pattern, s: string, i: nat, h: seq<string>)
    requires Reads(p, s, i, h)
    ensures var r := Match(p, s, i); r.Some? && AtLeastAsGreedy(r.value, h)
    decreases |p|, 1, 0
  {
    if p != [] {
      if p[0].Lit? {
        MatchComplete(p[1..], s, i + |p[0].text|, h);
      } else {
        var m := |h[0]|;
        forall k | i <= k < i + m
          ensures Admits(p[0], s[k])
        {
          assert s[k] == h[0][k - i];
        }
        SpanMaximal(p[0], s, i, m);
        BacktrackComplete(p, s, i, Span(p[0], s, i), h);
      }
    }
  }

  lemma {:induction false} BacktrackComplete(p: Pattern, s: string, i: nat, n: nat, h: seq<string>)
    requires p != [] && !p[0].Lit? && i + n <= |s|
    requires Reads(p, s, i, h) && |h[0]| <= n
    ensures var r := Backtrack(p, s, i, n); r.Some? && AtLeastAsGreedy(r.value, h)
    decreases |p|, 0, n
  {
    if n == |h[0]| {
      MatchComplete(p[1..], s, i + n, h[1..]);
      var g := Match(p[1..], s, i + n).value;
      var w := s[i..i + n];
      assert w == h[0];
      assert ([w] + g)[0] == w && ([w] + g)[1..] == g;
    } else {
      match Match(p[1..], s, i + n)
      case Some(g) =>
        assert ([s[i..i + n]] + g)[0] == s[i..i + n];
      case None =>
        BacktrackComplete(p, s, i, n - 1, h);
    }
  }

  lemma {:induction false} SearchFromSpec(p: Pattern, s: string, i: nat)
    requires i <= |s|
    ensures var r := SearchFrom(p, s, i);
      && (r.Some? ==>
            && i <= r.value.start <= |s|
            && Match(p, s, r.value.start) == Some(r.value.groups)
            && forall j: nat, h :: i <= j < r.value.start ==> !Reads(p, s, j, h))
      && (r.None? ==> forall j: nat, h :: i <= j ==> !Reads(p, s, j, h))
    decreases |s| - i
  {
    forall h | Reads(p, s, i, h)
      ensures Match(p, s, i).Some?
    {
      MatchComplete(p, s, i, h);
    }
    if Match(p, s, i).None? && i < |s| {
      SearchFromSpec(p, s, i + 1);
    }
  }

  /** `re.search(p, s)` succeeds exactly when `p` can be read somewhere in
      `s`. It then reports the leftmost start at which a reading exists, one
      string per group, and of the readings at that start the greediest. */
  lemma SearchSpec(p: Pattern, s: string)
    ensures var r := Search(p, s);
      && (r.Some? ==>
            && r.value.start <= |s|
            && Reads(p, s, r.value.start, r.value.groups)
            && |r.value.groups| == Groups(p)
            && (forall h :: Reads(p, s, r.value.start, h) ==> AtLeastAsGreedy(r.value.groups, h))
            && (forall j: nat, h :: j < r.value.start ==> !Reads(p, s, j, h)))
      && (r.None? ==> forall j: nat, h :: !Reads(p, s, j, h))
  {
    SearchFromSpec(p, s, 0);
    var r := Search(p, s);
    if r.Some? {
      var st := r.value.start;
      MatchSound(p, s, st);
      ReadsGroups(p, s, st, r.value.groups);
      forall h | Reads(p, s, st, h)
        ensures AtLeastAsGreedy(r.value.groups, h)
      {
        MatchComplete(p, s, st, h);
      }
    }
  }
}
