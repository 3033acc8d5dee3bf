/** The key normalisation that the notification repository applies to every key a client sends:
    strings.TrimSpace followed by strings.Trim with the cutset of both quotes. */
module KeyNormaliser {

  // unicode.IsSpace, the class TrimSpace removes
  const SPACES: set<char> := {
    ' ', '\t', '\n', '\U{0B}', '\U{0C}', '\r', '\U{85}', '\U{A0}', '\U{1680}',
    '\U{2000}', '\U{2001}', '\U{2002}', '\U{2003}', '\U{2004}', '\U{2005}', '\U{2006}',
    '\U{2007}', '\U{2008}', '\U{2009}', '\U{200A}', '\U{2028}', '\U{2029}', '\U{202F}',
    '\U{205F}', '\U{3000}'
  }

  // the cutset of the Trim call
  const QUOTES: set<char> := {'"', '\''}

  function TrimLeft(s: string, cutset: set<char>): string {
    if s != [] && s[0] in cutset then TrimLeft(s[1..], cutset) else s
  }

  function TrimRight(s: string, cutset: set<char>): string {
    if s != [] && s[|s| - 1] in cutset then TrimRight(s[..|s| - 1], cutset) else s
  }

  // strings.Trim
  function Trim(s: string, cutset: set<char>): string {
    TrimRight(TrimLeft(s, cutset), cutset)
  }

  // strings.TrimSpace
  function TrimSpace(s: string): string {
    Trim(s, SPACES)
  }

  // The two assignments at the head of every repository operation that takes a key
  function Normalise(key: string): string {
    Trim(TrimSpace(key), QUOTES)
  }

  function Iterate(s: string, passes: nat): string
    decreases passes
  {
    if passes == 0 then s else Iterate(Normalise(s), passes - 1)
  }

  predicate AllIn(s: string, cutset: set<char>) {
    forall i :: 0 <= i < |s| ==> s[i] in cutset
  }

  // No character of the cutset stands at either end; the empty string qualifies.
  predicate BareEnds(s: string, cutset: set<char>) {
    s == [] || (s[0] !in cutset && s[|s| - 1] !in cutset)
  }

  // m is what is left of s when a run of cutset characters is taken off each end, as far as it goes.
  ghost predicate IsTrimmed(s: string, m: string, cutset: set<char>) {
    BareEnds(m, cutset) &&
    exists l, r :: AllIn(l, cutset) && AllIn(r, cutset) && s == l + m + r
  }

  // ---- Trim against its reference definition ----

  lemma {:induction false} TrimLeftSplits(s: string, cutset: set<char>) returns (l: string)
    ensures s == l + TrimLeft(s, cutset) && AllIn(l, cutset)
    ensures TrimLeft(s, cutset) != [] ==> TrimLeft(s, cutset)[0] !in cutset
  {
    if s != [] && s[0] in cutset {
      var rest := TrimLeftSplits(s[1..], cutset);
      l := [s[0]] + rest;
    } else {
      l := [];
    }
  }

  lemma {:induction false} TrimRightSplits(s: string, cutset: set<char>) returns (r: string)
    ensures s == TrimRight(s, cutset) + r && AllIn(r, cutset)
    ensures TrimRight(s, cutset) != [] ==> TrimRight(s, cutset)[|TrimRight(s, cutset)| - 1] !in cutset
  {
    if s != [] && s[|s| - 1] in cutset {
      var rest := TrimRightSplits(s[..|s| - 1], cutset);
      r := rest + [s[|s| - 1]];
    } else {
      r := [];
    }
  }

  lemma TrimSplits(s: string, cutset: set<char>) returns (l: string, r: string)
    ensures AllIn(l, cutset) && AllIn(r, cutset) && s == l + Trim(s, cutset) + r
    ensures BareEnds(Trim(s, cutset), cutset)
  {
    l := TrimLeftSplits(s, cutset);
    r := TrimRightSplits(TrimLeft(s, cutset), cutset);
  }

  lemma {:induction false} TrimLeftDrops(l: string, t: string, cutset: set<char>)
    requires AllIn(l, cutset)
    ensures TrimLeft(l + t, cutset) == TrimLeft(t, cutset)
  {
    if l == [] {
      assert l + t == t;
    } else {
      assert (l + t)[1..] == l[1..] + t;
      TrimLeftDrops(l[1..], t, cutset);
    }
  }

  lemma {:induction false} TrimRightDrops(t: string, r: string, cutset: set<char>)
    requires AllIn(r, cutset)
    ensures TrimRight(t + r, cutset) == TrimRight(t, cutset)
  {
    if r == [] {
      assert t + r == t;
    } else {
      assert (t + r)[..|t + r| - 1] == t + r[..|r| - 1];
      TrimRightDrops(t, r[..|r| - 1], cutset);
    }
  }

  // Trim is the one function that meets the reference definition.
  lemma TrimMeetsReference(s: string, m: string, cutset: set<char>)
    ensures Trim(s, cutset) == m <==> IsTrimmed(s, m, cutset)
  {
    var l0, r0 := TrimSplits(s, cutset);
    if IsTrimmed(s, m, cutset) {
      var l, r :| AllIn(l, cutset) && AllIn(r, cutset) && s == l + m + r;
      TrimExact(l, m, r, cutset);
    }
  }

  lemma TrimExact(l: string, m: string, r: string, cutset: set<char>)
    requires AllIn(l, cutset) && AllIn(r, cutset) && BareEnds(m, cutset)
    ensures Trim(l + m + r, cutset) == m
  {
    assert l + m + r == l + (m + r);
    TrimLeftDrops(l, m + r, cutset);
    if m == [] {
      assert m + r == r + [];
      TrimLeftDrops(r, [], cutset);
    } else {
      assert TrimLeft(m + r, cutset) == m + r;
      TrimRightDrops(m, r, cutset);
    }
  }

  // ---- The normaliser ----

  lemma SpacesAndQuotesDiffer()
    ensures SPACES !! QUOTES
  {
  }

  // Outer whitespace, then quotes, around a string with bare ends is undone.
  lemma PaddingIsUndone(w1: string, q1: string, s: string, q2: string, w2: string)
    requires AllIn(w1, SPACES) && AllIn(w2, SPACES) && AllIn(q1, QUOTES) && AllIn(q2, QUOTES)
    requires BareEnds(s, SPACES + QUOTES)
    ensures Normalise(w1 + (q1 + s + q2) + w2) == s
  {
    SpacesAndQuotesDiffer();
    var quoted := q1 + s + q2;
    assert BareEnds(quoted, SPACES) by {
      if quoted != [] {
        assert quoted[0] == if q1 != [] then q1[0] else if s != [] then s[0] else q2[0];
        assert quoted[|quoted| - 1] ==
          if q2 != [] then q2[|q2| - 1] else if s != [] then s[|s| - 1] else q1[|q1| - 1];
      }
    }
    TrimExact(w1, quoted, w2, SPACES);
    TrimExact(q1, s, q2, QUOTES);
  }

  // A stored key can be selected by some key a client sends exactly when no quote stands at its ends.
  lemma ReachOfNormaliser(stored: string)
    ensures (exists key :: Normalise(key) == stored) <==> BareEnds(stored, QUOTES)
  {
    if BareEnds(stored, QUOTES) {
      QuotedKeySelects(stored);
    }
    forall key | Normalise(key) == stored
      ensures BareEnds(stored, QUOTES)
    {
      var l, r := TrimSplits(TrimSpace(key), QUOTES);
    }
  }

  // A key a client can send to select the stored one, also when that has whitespace at its ends
  function Quoted(stored: string): string {
    "\"" + stored + "\""
  }

  lemma QuotedKeySelects(stored: string)
    requires BareEnds(stored, QUOTES)
    ensures Normalise(Quoted(stored)) == stored
  {
    SpacesAndQuotesDiffer();
    assert [] + Quoted(stored) + [] == Quoted(stored);
    TrimExact([], Quoted(stored), [], SPACES);
    TrimExact("\"", stored, "\"", QUOTES);
  }

  // The white space of Unicode as unicode.IsSpace lists it, by code
  predicate IsWhite(code: int) {
    9 <= code <= 13 || code == 0x20 || code == 0x85 || code == 0xA0 || code == 0x1680 || 0x2000 <= code <= 0x200A ||
    code == 0x2028 || code == 0x2029 || code == 0x202F || code == 0x205F || code == 0x3000
  }

  // Of the keys of one character, the first step takes off white space, the second the two quotes, and nothing else.
  lemma SingleCharacters(c: char)
    ensures TrimSpace([c]) == [] <==> IsWhite(c as int)
    ensures Normalise([c]) == [] <==> IsWhite(c as int) || c as int == 34 || c as int == 39
  {
    assert c in SPACES <==> IsWhite(c as int);
    TrimSingle(c, SPACES);
    TrimSingle(c, QUOTES);
    TrimExact([], [], [], QUOTES);
  }

  lemma TrimSingle(c: char, cutset: set<char>)
    ensures Trim([c], cutset) == if c in cutset then [] else [c]
  {
    if c in cutset {
      assert [c] + [] + [] == [c];
      TrimExact([c], [], [], cutset);
    } else {
      assert [] + [c] + [] == [c];
      TrimExact([], [c], [], cutset);
    }
  }

  lemma Regroup(l: string, l1: string, core: string, r1: string, r: string)
    ensures l + (l1 + core + r1) + r == (l + l1) + core + (r1 + r)
  {
  }

  // One pass takes something off each end, all of it from the two classes together.
  lemma NormaliseSplits(s: string) returns (l: string, r: string)
    ensures s == l + Normalise(s) + r
    ensures AllIn(l, SPACES + QUOTES) && AllIn(r, SPACES + QUOTES)
  {
    var l1, r1 := TrimSplits(s, SPACES);
    var l2, r2 := TrimSplits(TrimSpace(s), QUOTES);
    Regroup(l1, l2, Normalise(s), r2, r1);
    l, r := l1 + l2, r2 + r1;
  }

  // The fixed points are the strings with neither class at either end; any other string gets shorter.
  lemma FixedPoints(s: string)
    ensures Normalise(s) == s <==> BareEnds(s, SPACES + QUOTES)
    ensures Normalise(s) != s ==> |Normalise(s)| < |s|
  {
    var l, r := NormaliseSplits(s);
    if BareEnds(s, SPACES + QUOTES) {
      assert [] + ([] + s + []) + [] == s;
      PaddingIsUndone([], [], s, [], []);
    } else {
      var l1, r1 := TrimSplits(s, SPACES);
      var l2, r2 := TrimSplits(TrimSpace(s), QUOTES);
    }
  }

  // What PaddingIsUndone undoes: whitespace around quotes around a string with bare ends
  ghost predicate IsPadded(s: string) {
    exists w1, q1, m, q2, w2 :: Padding(s, w1, q1, m, q2, w2)
  }

  ghost predicate Padding(s: string, w1: string, q1: string, m: string, q2: string, w2: string) {
    AllIn(w1, SPACES) && AllIn(w2, SPACES) && AllIn(q1, QUOTES) && AllIn(q2, QUOTES) &&
    BareEnds(m, SPACES + QUOTES) && s == w1 + (q1 + m + q2) + w2
  }

  // One pass is enough for exactly the keys in which no whitespace stands inside the outer quotes.
  lemma OnePassIsEnough(s: string)
    ensures Normalise(Normalise(s)) == Normalise(s) <==> IsPadded(s)
  {
    FixedPoints(Normalise(s));
    if Normalise(Normalise(s)) == Normalise(s) {
      var w1, w2 := TrimSplits(s, SPACES);
      var q1, q2 := TrimSplits(TrimSpace(s), QUOTES);
      assert Padding(s, w1, q1, Normalise(s), q2, w2);
    }
    if IsPadded(s) {
      var w1, q1, m, q2, w2 :| Padding(s, w1, q1, m, q2, w2);
      PaddingIsUndone(w1, q1, m, q2, w2);
    }
  }

  // The witness: a key with whitespace inside its quote
  lemma NotIdempotent()
    ensures Normalise("\" \"a") == " \"a"
    ensures Normalise(Normalise("\" \"a")) == "a"
  {
    SpacesAndQuotesDiffer();
    assert [] + "\" \"a" + [] == "\" \"a";
    TrimExact([], "\" \"a", [], SPACES);
    assert "\"" + " \"a" + [] == "\" \"a";
    TrimExact("\"", " \"a", [], QUOTES);
    assert " " + ("\"" + "a" + []) + [] == " \"a";
    PaddingIsUndone(" ", "\"", "a", [], []);
  }

  lemma NormaliseKeepsCore(s: string)
    ensures Trim(Normalise(s), SPACES + QUOTES) == Trim(s, SPACES + QUOTES)
  {
    var l, r := NormaliseSplits(s);
    var l1, r1 := TrimSplits(Normalise(s), SPACES + QUOTES);
    var core := Trim(Normalise(s), SPACES + QUOTES);
    Regroup(l, l1, core, r1, r);
    TrimExact(l + l1, core, r1 + r, SPACES + QUOTES);
  }

  // As many passes as the string is long reach the trim by the union of both classes.
  lemma {:induction false} IterationReachesUnionTrim(s: string, passes: nat)
    requires |s| <= passes
    ensures Iterate(s, passes) == Trim(s, SPACES + QUOTES)
    decreases passes
  {
    FixedPoints(s);
    NormaliseKeepsCore(s);
    if Normalise(s) == s {
      assert [] + s + [] == s;
      TrimExact([], s, [], SPACES + QUOTES);
      IterateFixed(s, passes);
    } else {
      IterationReachesUnionTrim(Normalise(s), passes - 1);
    }
  }

  lemma {:induction false} IterateFixed(s: string, passes: nat)
    requires Normalise(s) == s
    ensures Iterate(s, passes) == s
  {
    if passes == 0 {
    } else {
      IterateFixed(s, passes - 1);
    }
  }
}
