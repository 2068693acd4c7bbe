/** Redaction of secrets in process output: one-shot replacement, the line-buffered stream that must
    not depend on how the output is cut into reads, and the bounded capture. */
module Redaction {

  newtype Byte = x: int | 0 <= x < 256

  type Bytes = seq<Byte>

  const NEWLINE: Byte := 10
  const OPEN: Byte := 91
  const CLOSE: Byte := 93
  /** "[REDACTED]" */
  const MARKER: Bytes := [91, 82, 69, 68, 65, 67, 84, 69, 68, 93]

  /** A token list as the redactor keeps it: nothing empty. */
  predicate Tokens(tokens: seq<Bytes>) {
    forall i :: 0 <= i < |tokens| ==> tokens[i] != []
  }

  /** Every leftmost, non-overlapping occurrence of `token` becomes the marker. */
  function Replace(s: Bytes, token: Bytes): Bytes
    requires token != []
  {
    if s == [] then []
    else if token <= s then MARKER + Replace(s[|token|..], token)
    else [s[0]] + Replace(s[1..], token)
  }

  /** One token after the other. */
  function Redact(tokens: seq<Bytes>, s: Bytes): Bytes
    requires Tokens(tokens)
  {
    if tokens == [] then s else Redact(tokens[1..], Replace(s, tokens[0]))
  }

  // ---------------------------------------------------------------- the token list

  predicate LongestFirst(tokens: seq<Bytes>) {
    forall i, j :: 0 <= i < j < |tokens| ==> |tokens[i]| >= |tokens[j]|
  }

  /** Appending and sorting stably by length, longest first. */
  function Insert(tokens: seq<Bytes>, token: Bytes): (r: seq<Bytes>)
    ensures LongestFirst(tokens) ==> LongestFirst(r)
    ensures multiset(r) == multiset(tokens) + multiset{token}
    ensures forall i :: 0 <= i < |r| ==> r[i] == token || r[i] in tokens
  {
    if tokens == [] then [token]
    else if |tokens[|tokens| - 1]| >= |token| then tokens + [token]
    else
      var front, last := tokens[..|tokens| - 1], tokens[|tokens| - 1];
      assert tokens == front + [last];
      Insert(front, token) + [last]
  }

  class Redactor {
    var tokens: seq<Bytes>

    /** No empty and no repeated token, the longest first. */
    ghost predicate Valid()
      reads this
    {
      && Tokens(tokens) && LongestFirst(tokens)
      && forall t <- tokens :: multiset(tokens)[t] == 1
    }

    constructor ()
      ensures Valid() && tokens == []
    {
      tokens := [];
    }

    /** A secret of at least four bytes is known in its plain and its URL-encoded form. */
    method Add(value: Bytes, encoded: Bytes)
      requires Valid() && |encoded| >= |value|
      modifies this
      ensures Valid()
      ensures (set t <- tokens) == (set t <- old(tokens)) + if |value| < 4 then {} else {value, encoded}
    {
      if |value| < 4 {
        return;
      }
      AddToken(value);
      AddToken(encoded);
    }

    method AddToken(token: Bytes)
      requires Valid() && token != []
      modifies this
      ensures Valid()
      ensures (set t <- tokens) == (set t <- old(tokens)) + {token}
    {
      if token !in tokens {
        ghost var before := tokens;
        tokens := Insert(tokens, token);
        forall t ensures t in tokens <==> t in before || t == token {
          assert t in tokens <==> t in multiset(tokens);
        }
        forall t | t in tokens ensures multiset(tokens)[t] == 1 {
          assert t in before ==> t != token;
        }
      }
    }

    function Longest(): (n: nat)
      requires Valid()
      reads this
      ensures forall t <- tokens :: |t| <= n
      ensures tokens != [] ==> exists t <- tokens :: |t| == n
    {
      if tokens == [] then 0 else |tokens[0]|
    }
  }

  // ---------------------------------------------------------------- completeness

  predicate OccursAt(token: Bytes, s: Bytes, i: int) {
    0 <= i && i + |token| <= |s| && s[i..i + |token|] == token
  }

  ghost predicate Occurs(token: Bytes, s: Bytes) {
    exists i :: OccursAt(token, s, i)
  }

  /** `token` can begin in the last `k` bytes of a marker and go on behind it. */
  predicate LeavesMarker(token: Bytes, k: nat) {
    0 < k < |token| && k <= |MARKER| && token[..k] == MARKER[|MARKER| - k..]
  }

  /** `token` can begin `k` bytes before a marker and reach into it, or hold it. */
  predicate ReachesMarker(token: Bytes, k: nat) {
    0 < k < |token| && (token[k..] <= MARKER || MARKER <= token[k..])
  }

  ghost predicate SharesBorder(token: Bytes) {
    exists k: nat :: LeavesMarker(token, k) || ReachesMarker(token, k)
  }

  /** A token that neither occurs in the marker nor can share its border. */
  ghost predicate ClearOfMarker(token: Bytes) {
    token != [] && !Occurs(token, MARKER) && !SharesBorder(token)
  }

  /** Only brackets touch the marker from outside. */
  lemma WithoutBrackets(token: Bytes)
    requires OPEN !in token && CLOSE !in token
    ensures !SharesBorder(token)
  {
    if k: nat :| LeavesMarker(token, k) || ReachesMarker(token, k) {
      Bracketed(token, k);
    }
  }

  lemma Bracketed(token: Bytes, k: nat)
    requires LeavesMarker(token, k) || ReachesMarker(token, k)
    ensures OPEN in token || CLOSE in token
  {
    if LeavesMarker(token, k) {
      assert token[k - 1] == token[..k][k - 1] == MARKER[|MARKER| - k..][k - 1] == CLOSE;
    } else {
      assert token[k] == token[k..][0] == MARKER[0] == OPEN;
    }
  }

  /** The end of a token clear of the marker that is in front of the output was in front of the input. */
  lemma {:induction false} TailKept(x: Bytes, k: nat, s: Bytes, token: Bytes)
    requires token != [] && ClearOfMarker(x) && k <= |x| && x[k..] <= Replace(s, token)
    ensures x[k..] <= s
    decreases |x| - k
  {
    if k < |x| && s != [] {
      if token <= s {
        AtMarker(x, k, Replace(s[|token|..], token));
      } else {
        var rest := Replace(s[1..], token);
        assert x[k..][1..] == x[k + 1..];
        assert ([s[0]] + rest)[1..|x| - k] == rest[..|x| - k - 1];
        TailKept(x, k + 1, s[1..], token);
        assert x[k..] == [s[0]] + x[k + 1..];
      }
    }
  }

  /** A text that begins, or whose end begins, where a marker does. */
  lemma AtMarker(x: Bytes, k: nat, rest: Bytes)
    requires k < |x| && x[k..] <= MARKER + rest
    ensures Occurs(x, MARKER) || SharesBorder(x)
  {
    var u, all := x[k..], MARKER + rest;
    assert all[..|MARKER|] == MARKER;
    if |u| <= |MARKER| {
      assert u == all[..|u|] == MARKER[..|u|];
      assert if k == 0 then OccursAt(x, MARKER, 0) else ReachesMarker(x, k);
    } else {
      assert u[..|MARKER|] == all[..|MARKER|];
      assert if k == 0 then LeavesMarker(x, |MARKER|) else ReachesMarker(x, k);
    }
  }

  /** An occurrence of `x` in what follows the front `a` is an occurrence in the whole. */
  lemma OccursBehind(x: Bytes, a: Bytes, b: Bytes, i: int)
    requires i >= |a|
    ensures OccursAt(x, a + b, i) <==> OccursAt(x, b, i - |a|)
  {
    if i + |x| <= |a + b| {
      assert (a + b)[i..i + |x|] == b[i - |a|..i - |a| + |x|];
    }
  }

  /** Replacing creates no occurrence: where `x` is in the output, it was in the input. */
  lemma {:induction false} ReplaceCreatesNothing(x: Bytes, s: Bytes, token: Bytes, i: int)
    requires token != [] && ClearOfMarker(x) && OccursAt(x, Replace(s, token), i)
    ensures Occurs(x, s)
  {
    var out := Replace(s, token);
    if token <= s {
      var rest := s[|token|..];
      if i < |MARKER| {
        AcrossMarker(x, Replace(rest, token), i);
      } else {
        OccursBehind(x, MARKER, Replace(rest, token), i);
        ReplaceCreatesNothing(x, rest, token, i - |MARKER|);
        var j :| OccursAt(x, rest, j);
        assert s == token + rest;
        OccursBehind(x, token, rest, j + |token|);
      }
    } else if i == 0 {
      assert out[..|x|] == x == x[0..];
      TailKept(x, 0, s, token);
      assert OccursAt(x, s, 0);
    } else {
      OccursBehind(x, [s[0]], Replace(s[1..], token), i);
      ReplaceCreatesNothing(x, s[1..], token, i - 1);
      var j :| OccursAt(x, s[1..], j);
      assert s == [s[0]] + s[1..];
      OccursBehind(x, [s[0]], s[1..], j + 1);
    }
  }

  /** An occurrence that starts inside a marker would be inside it or share its border. */
  lemma AcrossMarker(x: Bytes, rest: Bytes, i: nat)
    requires ClearOfMarker(x) && i < |MARKER|
    ensures !OccursAt(x, MARKER + rest, i)
  {
    if i + |x| <= |MARKER| {
      assert MARKER[i..i + |x|] == (MARKER + rest)[i..i + |x|];
      assert !OccursAt(x, MARKER, i);
    } else if i + |x| <= |MARKER + rest| {
      var k := |MARKER| - i;
      if OccursAt(x, MARKER + rest, i) {
        assert x[..k] == (MARKER + rest)[i..i + |x|][..k] == MARKER[i..];
        assert LeavesMarker(x, k);
      }
    }
  }

  lemma {:induction false} ReplaceRemoves(s: Bytes, token: Bytes, i: int)
    requires ClearOfMarker(token)
    ensures !OccursAt(token, Replace(s, token), i)
  {
    var out := Replace(s, token);
    if s != [] && i >= 0 {
      if token <= s {
        var rest := s[|token|..];
        if i < |MARKER| {
          AcrossMarker(token, Replace(rest, token), i);
        } else {
          OccursBehind(token, MARKER, Replace(rest, token), i);
          ReplaceRemoves(rest, token, i - |MARKER|);
        }
      } else if i == 0 {
        if OccursAt(token, out, 0) {
          assert out[..|token|] == token == token[0..];
          TailKept(token, 0, s, token);
        }
      } else {
        OccursBehind(token, [s[0]], Replace(s[1..], token), i);
        ReplaceRemoves(s[1..], token, i - 1);
      }
    }
  }

  /** A token clear of the marker is never left, whatever the other tokens are. */
  lemma {:induction false} ClearNeverLeft(tokens: seq<Bytes>, x: Bytes, s: Bytes)
    requires Tokens(tokens) && x in tokens && ClearOfMarker(x)
    ensures !Occurs(x, Redact(tokens, s))
  {
    var after := Replace(s, tokens[0]);
    if x == tokens[0] {
      forall i ensures !OccursAt(x, after, i) {
        ReplaceRemoves(s, x, i);
      }
      RedactCreatesNothing(x, tokens[1..], after);
    } else {
      ClearNeverLeft(tokens[1..], x, after);
    }
  }

  /** After redaction none of the tokens is left anywhere in the output. */
  lemma NothingLeft(tokens: seq<Bytes>, s: Bytes)
    requires Tokens(tokens) && forall t <- tokens :: ClearOfMarker(t)
    ensures forall t <- tokens :: !Occurs(t, Redact(tokens, s))
  {
    forall t | t in tokens ensures !Occurs(t, Redact(tokens, s)) {
      ClearNeverLeft(tokens, t, s);
    }
  }

  lemma {:induction false} RedactCreatesNothing(x: Bytes, tokens: seq<Bytes>, s: Bytes)
    requires Tokens(tokens) && ClearOfMarker(x) && !Occurs(x, s)
    ensures !Occurs(x, Redact(tokens, s))
  {
    if tokens != [] {
      var after := Replace(s, tokens[0]);
      forall i ensures !OccursAt(x, after, i) {
        if OccursAt(x, after, i) {
          ReplaceCreatesNothing(x, s, tokens[0], i);
        }
      }
      RedactCreatesNothing(x, tokens[1..], after);
    }
  }

  // ---------------------------------------------------------------- exactly when something is left

  lemma {:induction false} RedactTailKept(tokens: seq<Bytes>, x: Bytes, k: nat, s: Bytes)
    requires Tokens(tokens) && ClearOfMarker(x) && k <= |x| && x[k..] <= Redact(tokens, s)
    ensures x[k..] <= s
  {
    if tokens != [] {
      RedactTailKept(tokens[1..], x, k, Replace(s, tokens[0]));
      TailKept(x, k, s, tokens[0]);
    }
  }

  /** Where a token is found, a marker is written. */
  lemma {:induction false} FoundIsMarked(s: Bytes, token: Bytes)
    requires token != [] && Occurs(token, s)
    ensures Occurs(MARKER, Replace(s, token))
  {
    var i :| OccursAt(token, s, i);
    if token <= s {
      assert OccursAt(MARKER, MARKER + Replace(s[|token|..], token), 0);
    } else {
      assert i > 0;
      assert s == [s[0]] + s[1..];
      OccursBehind(token, [s[0]], s[1..], i);
      FoundIsMarked(s[1..], token);
      var j :| OccursAt(MARKER, Replace(s[1..], token), j);
      OccursBehind(MARKER, [s[0]], Replace(s[1..], token), j + 1);
    }
  }

  lemma OccursInside(a: Bytes, b: Bytes, c: Bytes)
    requires Occurs(a, b) && Occurs(b, c)
    ensures Occurs(a, c)
  {
    var i :| OccursAt(a, b, i);
    var j :| OccursAt(b, c, j);
    SliceOfSlice(c, j, |b|, i, |a|);
    assert OccursAt(a, c, j + i);
  }

  lemma SliceOfSlice(s: Bytes, j: nat, n: nat, i: nat, m: nat)
    requires j + n <= |s| && i + m <= n
    ensures s[j..j + n][i..i + m] == s[j + i..j + i + m]
  {
    var a, b := s[j..j + n][i..i + m], s[j + i..j + i + m];
    assert |a| == |b| == m;
    forall k | 0 <= k < m ensures a[k] == b[k] {
      assert s[j..j + n][i + k] == s[j + i + k];
    }
  }

  /** An occurrence that ends before `b` begins is one in the front. */
  lemma OccursBefore(x: Bytes, a: Bytes, b: Bytes, i: nat)
    requires i + |x| <= |a|
    ensures OccursAt(x, a + b, i) <==> OccursAt(x, a, i)
  {
    assert (a + b)[i..i + |x|] == a[i..i + |x|];
  }

  /** Text of the marker survives every redaction, by whatever tokens. */
  lemma {:induction false} MarkerTextStays(tokens: seq<Bytes>, t: Bytes, s: Bytes)
    requires Tokens(tokens) && Occurs(t, MARKER) && Occurs(t, s)
    ensures Occurs(t, Redact(tokens, s))
  {
    if tokens != [] {
      var after := Replace(s, tokens[0]);
      if Occurs(tokens[0], s) {
        FoundIsMarked(s, tokens[0]);
        OccursInside(t, MARKER, after);
      } else {
        ReplaceNothing(s, tokens[0]);
      }
      MarkerTextStays(tokens[1..], t, after);
    }
  }

  /** No token is left in any text. */
  ghost predicate Complete(tokens: seq<Bytes>)
    requires Tokens(tokens)
  {
    forall s, t | t in tokens :: !Occurs(t, Redact(tokens, s))
  }

  /** The token holds a token of the list that is clear of the marker. */
  ghost predicate Guarded(tokens: seq<Bytes>, token: Bytes) {
    exists u <- tokens :: ClearOfMarker(u) && Occurs(u, token)
  }

  /** Where every token that shares a border of the marker holds one that is clear of it: redaction is complete
      exactly when none is part of the marker's text. */
  lemma CompleteExactly(tokens: seq<Bytes>)
    requires Tokens(tokens) && forall t <- tokens :: SharesBorder(t) ==> Guarded(tokens, t)
    ensures Complete(tokens) <==> forall t <- tokens :: !Occurs(t, MARKER)
  {
    hide SharesBorder, ClearOfMarker, Redact, OccursAt;
    forall t | t in tokens && Occurs(t, MARKER) ensures !Complete(tokens) {
      OccursInItself(t);
      MarkerTextStays(tokens, t, t);
    }
    if forall t <- tokens :: !Occurs(t, MARKER) {
      forall s, t | t in tokens ensures !Occurs(t, Redact(tokens, s)) {
        if SharesBorder(t) {
          var u :| u in tokens && ClearOfMarker(u) && Occurs(u, t);
          ClearNeverLeft(tokens, u, s);
          if Occurs(t, Redact(tokens, s)) {
            OccursInside(u, t, Redact(tokens, s));
          }
        } else {
          IsClear(t);
          ClearNeverLeft(tokens, t, s);
        }
      }
    }
  }

  lemma OccursInItself(t: Bytes)
    ensures Occurs(t, t)
  {
    assert OccursAt(t, t, 0);
  }

  lemma IsClear(t: Bytes)
    requires t != [] && !SharesBorder(t) && !Occurs(t, MARKER)
    ensures ClearOfMarker(t)
  {
  }

  /** Tokens without brackets are such a list. */
  lemma CompleteWithoutBrackets(tokens: seq<Bytes>)
    requires Tokens(tokens) && forall t <- tokens :: OPEN !in t && CLOSE !in t
    ensures Complete(tokens) <==> forall t <- tokens :: !Occurs(t, MARKER)
  {
    forall t | t in tokens ensures !SharesBorder(t) {
      WithoutBrackets(t);
    }
    CompleteExactly(tokens);
  }

  // ---------------------------------------------------------------- one token, brackets or not

  /** `token` can reach into a marker `k` bytes behind its beginning: those bytes in front of a token are not the
      start of an earlier one. */
  predicate EntersMarker(token: Bytes, k: nat) {
    ReachesMarker(token, k) && forall i :: 0 <= i < k ==> !OccursAt(token, token[..k] + token, i)
  }

  /** What a caller can check of a token. */
  ghost predicate CanBeLeft(token: Bytes) {
    || Occurs(token, MARKER)
    || (exists k: nat :: LeavesMarker(token, k))
    || (exists k: nat :: EntersMarker(token, k))
  }

  lemma TooShort(s: Bytes, token: Bytes)
    requires |s| < |token|
    ensures !Occurs(token, s) && Replace(s, token) == s
  {
    ReplaceNothing(s, token);
  }

  lemma ReplaceSkips(s: Bytes, token: Bytes)
    requires token != [] && s != [] && !OccursAt(token, s, 0)
    ensures Replace(s, token) == [s[0]] + Replace(s[1..], token)
  {
  }

  lemma ReplaceMatches(token: Bytes, rest: Bytes)
    requires token != []
    ensures Replace(token + rest, token) == MARKER + Replace(rest, token)
  {
    assert (token + rest)[|token|..] == rest;
  }

  lemma HeadAndTail(a: Bytes, b: Bytes)
    requires a != []
    ensures a + b != [] && (a + b)[0] == a[0] && (a + b)[1..] == a[1..] + b
    ensures [a[0]] + (a[1..] + b) == a + b
  {
  }

  /** Before the first match nothing changes. */
  lemma {:induction false} ReplaceFirst(a: Bytes, token: Bytes, rest: Bytes)
    requires token != [] && forall i :: 0 <= i < |a| ==> !OccursAt(token, a + (token + rest), i)
    ensures Replace(a + (token + rest), token) == a + (MARKER + Replace(rest, token))
  {
    hide Replace, OccursAt;
    var b := token + rest;
    ReplaceMatches(token, rest);
    if a == [] {
      assert a + b == b && a + (MARKER + Replace(rest, token)) == MARKER + Replace(rest, token);
    } else {
      HeadAndTail(a, b);
      HeadAndTail(a, MARKER + Replace(rest, token));
      ReplaceSkips(a + b, token);
      forall i | 0 <= i < |a[1..]| ensures !OccursAt(token, a[1..] + b, i) {
        OccursBehind(token, [a[0]], a[1..] + b, i + 1);
      }
      ReplaceFirst(a[1..], token, rest);
    }
  }

  lemma {:induction false} FirstIndex(s: Bytes, token: Bytes, j: nat) returns (k: nat)
    requires OccursAt(token, s, j)
    ensures OccursAt(token, s, k) && forall i :: 0 <= i < k ==> !OccursAt(token, s, i)
    decreases j
  {
    if i :| 0 <= i < j && OccursAt(token, s, i) {
      k := FirstIndex(s, token, i);
    } else {
      k := j;
    }
  }

  /** The first match, with what stands before and behind it. */
  lemma FirstMatch(s: Bytes, token: Bytes) returns (a: Bytes, rest: Bytes)
    requires token != [] && Occurs(token, s)
    ensures s == a + (token + rest) && Replace(s, token) == a + (MARKER + Replace(rest, token))
    ensures forall i :: 0 <= i < |a| ==> !OccursAt(token, s, i)
  {
    var j :| OccursAt(token, s, j);
    var k := FirstIndex(s, token, j);
    a, rest := s[..k], s[k + |token|..];
    assert s == a + (token + rest);
    ReplaceFirst(a, token, rest);
  }

  /** An occurrence at the front of the output that is none in the input reaches into the first marker. */
  lemma FrontEnters(s: Bytes, token: Bytes)
    requires token != [] && token <= Replace(s, token) && !(token <= s)
    ensures exists k: nat :: EntersMarker(token, k)
  {
    hide Replace, OccursAt, EntersMarker;
    if !Occurs(token, s) {
      ReplaceNothing(s, token);
    }
    var a, rest := FirstMatch(s, token);
    assert a == [] ==> s == token + rest;
    var tail := Replace(rest, token);
    if |token| <= |a| {
      PrefixInFront(a, MARKER + tail, token + rest, token);
    }
    BorderCut(a, tail, token);
    NoneInFront(a, token, rest, s);
    Enters(a, token);
  }

  lemma PrefixInFront(a: Bytes, b: Bytes, c: Bytes, token: Bytes)
    requires token <= a + b && |token| <= |a|
    ensures token <= a + c
  {
    assert (a + b)[..|token|] == a[..|token|] == (a + c)[..|token|];
  }

  lemma Enters(a: Bytes, token: Bytes)
    requires 0 < |a| < |token| && token[..|a|] == a && (token[|a|..] <= MARKER || MARKER <= token[|a|..])
    requires forall i :: 0 <= i < |a| ==> !OccursAt(token, a + token, i)
    ensures EntersMarker(token, |a|)
  {
  }

  lemma BorderCut(a: Bytes, tail: Bytes, token: Bytes)
    requires 0 < |a| < |token| && token <= a + (MARKER + tail)
    ensures token[..|a|] == a && (token[|a|..] <= MARKER || MARKER <= token[|a|..])
  {
    var all := a + (MARKER + tail);
    assert token == all[..|token|];
    assert token[..|a|] == all[..|a|] == a;
    assert token[|a|..] == all[|a|..|token|];
    assert all[|a|..] == MARKER + tail;
    assert token[|a|..] == (MARKER + tail)[..|token| - |a|];
  }

  lemma NoneInFront(a: Bytes, token: Bytes, rest: Bytes, s: Bytes)
    requires s == a + (token + rest)
    ensures (forall i :: 0 <= i < |a| ==> !OccursAt(token, s, i)) <==>
            forall i :: 0 <= i < |a| ==> !OccursAt(token, a + token, i)
  {
    hide OccursAt;
    forall i | 0 <= i < |a| ensures OccursAt(token, s, i) <==> OccursAt(token, a + token, i) {
      assert s == (a + token) + rest;
      OccursBefore(token, a + token, rest, i);
    }
  }

  /** Wherever the token is in the output, it is because of a marker. */
  lemma {:induction false} LeftByMarker(s: Bytes, token: Bytes, i: int)
    requires token != [] && OccursAt(token, Replace(s, token), i)
    ensures CanBeLeft(token)
  {
    hide CanBeLeft;
    if token <= s {
      var rest := Replace(s[|token|..], token);
      if i >= |MARKER| {
        OccursBehind(token, MARKER, rest, i);
        LeftByMarker(s[|token|..], token, i - |MARKER|);
      } else {
        InMarker(token, rest, i);
      }
    } else if i == 0 {
      assert token == Replace(s, token)[0..|token|];
      FrontEnters(s, token);
      CanEnter(token);
    } else {
      OccursBehind(token, [s[0]], Replace(s[1..], token), i);
      LeftByMarker(s[1..], token, i - 1);
    }
  }

  lemma CanEnter(token: Bytes)
    requires exists k: nat :: EntersMarker(token, k)
    ensures CanBeLeft(token)
  {
  }

  lemma InMarker(token: Bytes, rest: Bytes, i: nat)
    requires i < |MARKER| && OccursAt(token, MARKER + rest, i)
    ensures CanBeLeft(token)
  {
    var all := MARKER + rest;
    if i + |token| <= |MARKER| {
      assert MARKER[i..i + |token|] == all[i..i + |token|];
      assert OccursAt(token, MARKER, i);
    } else {
      var k := |MARKER| - i;
      assert token[..k] == all[i..i + |token|][..k] == MARKER[i..];
      assert LeavesMarker(token, k);
    }
  }

  /** Every token that meets the condition is really left in some text. */
  lemma LeftSomewhere(token: Bytes) returns (s: Bytes)
    requires token != [] && CanBeLeft(token)
    ensures Occurs(token, Replace(s, token))
  {
    hide LeavesMarker, EntersMarker, Replace;
    if Occurs(token, MARKER) {
      s := token;
      assert OccursAt(token, s, 0);
      FoundIsMarked(s, token);
      OccursInside(token, MARKER, Replace(s, token));
    } else if exists k: nat :: LeavesMarker(token, k) {
      var k: nat :| LeavesMarker(token, k);
      s := LeftText(token, k);
    } else {
      var k: nat :| EntersMarker(token, k);
      s := EnteredText(token, k);
    }
  }

  lemma LeftText(token: Bytes, k: nat) returns (s: Bytes)
    requires LeavesMarker(token, k)
    ensures Occurs(token, Replace(s, token))
  {
    var rest := token[k..];
    s := token + rest;
    TooShort(rest, token);
    assert s[|token|..] == rest && token <= s;
    assert Replace(s, token) == MARKER + rest;
    assert token == token[..k] + rest;
    assert (MARKER + rest)[|MARKER| - k..|MARKER| - k + |token|] == token;
    assert OccursAt(token, MARKER + rest, |MARKER| - k);
  }

  lemma EnteredText(token: Bytes, k: nat) returns (s: Bytes)
    requires EntersMarker(token, k)
    ensures Occurs(token, Replace(s, token))
  {
    hide Replace, OccursAt;
    var front, inside := token[..k], token[k..];
    var rest := if MARKER <= inside then inside[|MARKER|..] else [];
    s := front + (token + rest);
    TooShort(rest, token);
    NoneInFront(front, token, rest, s);
    ReplaceFirst(front, token, rest);
    EnteredFront(token, k, front + (MARKER + rest));
  }

  lemma EnteredFront(token: Bytes, k: nat, out: Bytes)
    requires k <= |token| && (token[k..] <= MARKER || MARKER <= token[k..])
    requires out == token[..k] + (MARKER + if MARKER <= token[k..] then token[k..][|MARKER|..] else [])
    ensures Occurs(token, out)
  {
    var inside := token[k..];
    assert token == token[..k] + inside;
    if MARKER <= inside {
      assert inside == MARKER + inside[|MARKER|..];
    } else {
      assert MARKER == inside + MARKER[|inside|..];
    }
    assert token <= out;
    assert OccursAt(token, out, 0);
  }

  /** One token, whatever its bytes: it is left in some text exactly when it is inside the marker or shares
      one of its borders. */
  lemma LeftExactly(token: Bytes)
    requires token != []
    ensures !Complete([token]) <==> CanBeLeft(token)
  {
    hide CanBeLeft, Replace, OccursAt;
    if CanBeLeft(token) {
      var s := LeftSomewhere(token);
      OneToken(token, s);
      assert token in [token] && Occurs(token, Redact([token], s));
    }
    if !CanBeLeft(token) {
      forall s ensures !Occurs(token, Redact([token], s)) {
        OneToken(token, s);
        forall i ensures !OccursAt(token, Replace(s, token), i) {
          if OccursAt(token, Replace(s, token), i) {
            LeftByMarker(s, token, i);
          }
        }
      }
    }
  }

  lemma OneToken(token: Bytes, s: Bytes)
    requires token != []
    ensures Redact([token], s) == Replace(s, token)
  {
    assert Redact([token][1..], Replace(s, token)) == Replace(s, token);
  }

  /** A secret that is part of the marker's own text stays readable. */
  lemma SecretInsideMarker()
    ensures var secret: Bytes := [65, 67, 84, 69]; Occurs(secret, Redact([secret], secret))
  {
    var secret: Bytes := [65, 67, 84, 69];
    assert Replace([], secret) == [];
    assert Replace(secret, secret) == MARKER;
    assert Redact([secret], secret) == Redact([], MARKER) == MARKER;
    assert OccursAt(secret, MARKER, 4);
  }

  /** So does "x[RED" in "xx[RED": it reaches into the marker that replaces it. A bracket alone does no
      harm: "a[bc" is never left. */
  lemma SecretAtTheBorder()
    ensures var secret: Bytes := [120, 91, 82, 69, 68];
            !Occurs(secret, MARKER) && Replace([120] + secret, secret) == [120] + MARKER
            && Occurs(secret, Redact([secret], [120] + secret))
    ensures Complete([[97, 91, 98, 99]])
  {
    var secret: Bytes := [120, 91, 82, 69, 68];
    NotInMarker(secret, 0);
    assert ([120] + secret)[1..] == secret && secret[|secret|..] == [];
    assert !(secret <= [120] + secret) by { assert ([120] + secret)[1] != secret[1]; }
    assert Replace([], secret) == [] && Replace(secret, secret) == MARKER;
    assert Redact([secret], [120] + secret) == [120] + MARKER;
    assert ([120] + MARKER)[0..5] == secret;
    assert OccursAt(secret, [120] + MARKER, 0);
    HarmlessBracket();
  }

  lemma HarmlessBracket()
    ensures Complete([[97, 91, 98, 99]])
  {
    var token: Bytes := [97, 91, 98, 99];
    NotInMarker(token, 0);
    forall k: nat ensures !LeavesMarker(token, k) {
      if 0 < k <= |MARKER| && k < |token| {
        assert token[..k][0] == 97 != MARKER[|MARKER| - k..][0];
      }
    }
    forall k: nat ensures !EntersMarker(token, k) {
      if 0 < k < |token| {
        assert token[k..][|token| - k - 1] == 99;
        assert |token[k..]| < |MARKER| && MARKER[|token| - k - 1] != 99;
      }
    }
    LeftExactly(token);
  }

  lemma NotInMarker(token: Bytes, k: nat)
    requires k < |token| && token[k] !in MARKER
    ensures !Occurs(token, MARKER)
  {
    forall i ensures !OccursAt(token, MARKER, i) {
      if 0 <= i && i + |token| <= |MARKER| {
        assert MARKER[i..i + |token|][k] == MARKER[i + k];
      }
    }
  }

  /** "]abcd" alone is left in some text; beside the token "abcd" it never is. */
  lemma GuardHelps()
    ensures var token: Bytes := [93, 97, 98, 99, 100];
            !Complete([token]) && Complete([token, token[1..]])
  {
    var token: Bytes := [93, 97, 98, 99, 100];
    var guard := token[1..];
    assert LeavesMarker(token, 1);
    LeftExactly(token);
    NotInMarker(token, 1);
    NotInMarker(guard, 0);
    WithoutBrackets(guard);
    assert guard in [token, guard] && OccursAt(guard, token, 1);
    assert Guarded([token, guard], token);
    CompleteExactly([token, guard]);
  }

  // ---------------------------------------------------------------- cutting at a newline

  predicate EndsLine(s: Bytes) {
    s != [] && s[|s| - 1] == NEWLINE
  }

  ghost predicate OneLine(tokens: seq<Bytes>) {
    Tokens(tokens) && forall t <- tokens :: NEWLINE !in t
  }

  lemma {:induction false} ReplaceByLines(a: Bytes, b: Bytes, token: Bytes)
    requires token != [] && NEWLINE !in token && EndsLine(a)
    ensures Replace(a + b, token) == Replace(a, token) + Replace(b, token)
    ensures EndsLine(Replace(a, token))
  {
    if token <= a + b {
      assert (a + b)[|a| - 1] == NEWLINE;
      assert |token| < |a| && token <= a;
      assert (a + b)[|token|..] == a[|token|..] + b;
      ReplaceByLines(a[|token|..], b, token);
    } else {
      assert !(token <= a);
      if |a| == 1 {
        assert (a + b)[1..] == b && a[1..] == [];
      } else {
        assert (a + b)[1..] == a[1..] + b;
        ReplaceByLines(a[1..], b, token);
      }
    }
  }

  /** Redaction line by line is redaction of the whole. */
  lemma {:induction false} RedactByLines(tokens: seq<Bytes>, a: Bytes, b: Bytes)
    requires OneLine(tokens) && (a == [] || EndsLine(a))
    ensures Redact(tokens, a + b) == Redact(tokens, a) + Redact(tokens, b)
  {
    if a == [] {
      RedactEmpty(tokens);
      assert a + b == b;
    } else if tokens != [] {
      ReplaceByLines(a, b, tokens[0]);
      RedactByLines(tokens[1..], Replace(a, tokens[0]), Replace(b, tokens[0]));
    }
  }

  lemma {:induction false} RedactEmpty(tokens: seq<Bytes>)
    requires Tokens(tokens)
    ensures Redact(tokens, []) == []
  {
    if tokens != [] {
      RedactEmpty(tokens[1..]);
    }
  }

  // ---------------------------------------------------------------- text without secrets

  ghost predicate NoSecret(tokens: seq<Bytes>, s: Bytes) {
    forall t <- tokens :: !Occurs(t, s)
  }

  lemma NoneInTail(s: Bytes, token: Bytes)
    requires s != [] && !Occurs(token, s)
    ensures !Occurs(token, s[1..]) && !(token <= s)
  {
    assert OccursAt(token, s, 0) <==> token <= s;
    forall i ensures !OccursAt(token, s[1..], i) {
      if i >= 0 {
        assert s == [s[0]] + s[1..];
        OccursBehind(token, [s[0]], s[1..], i + 1);
      }
    }
  }

  lemma {:induction false} ReplaceNothing(s: Bytes, token: Bytes)
    requires token != [] && !Occurs(token, s)
    ensures Replace(s, token) == s
  {
    hide Occurs;
    if s != [] {
      NoneInTail(s, token);
      ReplaceNothing(s[1..], token);
      assert Replace(s, token) == [s[0]] + s[1..];
    }
  }

  lemma {:induction false} RedactNothing(tokens: seq<Bytes>, s: Bytes)
    requires Tokens(tokens) && NoSecret(tokens, s)
    ensures Redact(tokens, s) == s
  {
    if tokens != [] {
      ReplaceNothing(s, tokens[0]);
      RedactNothing(tokens[1..], s);
    }
  }

  lemma NoSecretInside(tokens: seq<Bytes>, a: Bytes, b: Bytes, c: Bytes)
    requires NoSecret(tokens, a + b + c)
    ensures NoSecret(tokens, b)
  {
    forall t | t in tokens ensures !Occurs(t, b) {
      forall i ensures !OccursAt(t, b, i) {
        if 0 <= i && i + |t| <= |b| {
          assert (a + b + c)[|a| + i..|a| + i + |t|] == b[i..i + |t|];
          assert OccursAt(t, a + b + c, |a| + i) <==> OccursAt(t, b, i);
        }
      }
    }
  }

  // ---------------------------------------------------------------- the stream

  const LINE_LIMIT: nat := 65536

  /** No stretch without a newline is longer than the line buffer. */
  ghost predicate ShortLines(s: Bytes) {
    forall i, j :: 0 <= i <= j <= |s| && NEWLINE !in s[i..j] ==> j - i <= LINE_LIMIT
  }

  /** The cut: one past the last newline, 0 without one. */
  function LastLineEnd(s: Bytes): (cut: nat)
    ensures cut <= |s| && NEWLINE !in s[cut..] && (cut == 0 || EndsLine(s[..cut]))
  {
    if s == [] then 0 else if EndsLine(s) then |s| else
      var cut := LastLineEnd(s[..|s| - 1]);
      assert s[cut..] == s[..|s| - 1][cut..] + [s[|s| - 1]];
      assert s[..cut] == s[..|s| - 1][..cut];
      cut
  }

  /** The whole lines seen so far are forwarded redacted; the rest is pending. */
  ghost predicate InStep(tokens: seq<Bytes>, done: Bytes, seen: Bytes, emitted: Bytes, pending: Bytes)
    requires Tokens(tokens)
  {
    && seen == done + pending
    && (done == [] || EndsLine(done))
    && NEWLINE !in pending
    && emitted == Redact(tokens, done)
  }

  lemma ShortPrefix(a: Bytes, b: Bytes)
    requires ShortLines(a + b)
    ensures ShortLines(a)
  {
    forall i, j | 0 <= i <= j <= |a| && NEWLINE !in a[i..j] ensures j - i <= LINE_LIMIT {
      assert (a + b)[i..j] == a[i..j];
    }
  }

  /** A read of the pipe: lines that are complete now are forwarded. */
  lemma LinesForwarded(tokens: seq<Bytes>, done: Bytes, seen: Bytes, emitted: Bytes, pending: Bytes, data: Bytes)
    requires OneLine(tokens) && InStep(tokens, done, seen, emitted, pending)
    ensures var all := pending + data;
            var cut := LastLineEnd(all);
            InStep(tokens, done + all[..cut], seen + data, emitted + Redact(tokens, all[..cut]), all[cut..])
  {
    hide Redact, LastLineEnd;
    var all := pending + data;
    var cut := LastLineEnd(all);
    RedactByLines(tokens, done, all[..cut]);
    assert all == all[..cut] + all[cut..];
    assert seen + data == done + all;
    assert cut > 0 ==> (done + all[..cut])[|done + all[..cut]| - 1] == all[..cut][cut - 1];
    assert cut == 0 ==> done + all[..cut] == done;
  }

  lemma LongLine(tokens: seq<Bytes>, done: Bytes, seen: Bytes, emitted: Bytes, pending: Bytes)
    requires Tokens(tokens) && ShortLines(seen) && InStep(tokens, done, seen, emitted, pending)
    ensures |pending| <= LINE_LIMIT
  {
    assert seen[|done|..|seen|] == pending;
  }

  // ---------------------------------------------------------------- nothing left behind in a stream

  /** Tokens clear of the marker that fit into the retained tail. */
  ghost predicate Clears(tokens: seq<Bytes>, hold: nat) {
    forall t <- tokens :: ClearOfMarker(t) && |t| <= hold
  }

  /** Whatever follows, no token begins in what was emitted. */
  ghost predicate Sealed(tokens: seq<Bytes>, emitted: Bytes, pending: Bytes) {
    forall t, more, i :: t in tokens && 0 <= i < |emitted| ==> !OccursAt(t, emitted + (pending + more), i)
  }

  lemma SealedWithMore(tokens: seq<Bytes>, emitted: Bytes, pending: Bytes, data: Bytes)
    requires Sealed(tokens, emitted, pending)
    ensures Sealed(tokens, emitted, pending + data)
  {
    hide OccursAt;
    forall t, more, i | t in tokens && 0 <= i < |emitted| ensures !OccursAt(t, emitted + ((pending + data) + more), i) {
      assert (pending + data) + more == pending + (data + more);
    }
  }

  /** A token clear of the marker that begins before a redaction and ends in it was there before. */
  lemma KeptAcross(tokens: seq<Bytes>, e: Bytes, p: Bytes, x: Bytes, i: nat)
    requires Tokens(tokens) && ClearOfMarker(x) && i < |e| && OccursAt(x, e + Redact(tokens, p), i)
    ensures OccursAt(x, e + p, i)
  {
    hide ClearOfMarker;
    var after := Redact(tokens, p);
    if i + |x| <= |e| {
      OccursBefore(x, e, after, i);
      OccursBefore(x, e, p, i);
    } else {
      var k := |e| - i;
      TailOf(e, after, x, i);
      assert x[k..] == after[..|x| - k];
      RedactTailKept(tokens, x, k, p);
      assert p[..|x| - k] == x[k..];
      TailOf(e, p, x, i);
    }
  }

  lemma TailOf(e: Bytes, b: Bytes, x: Bytes, i: nat)
    requires i < |e| < i + |x|
    ensures OccursAt(x, e + b, i) <==>
            i + |x| <= |e| + |b| && x == e[i..] + b[..i + |x| - |e|]
    ensures OccursAt(x, e + b, i) ==> x[|e| - i..] == b[..i + |x| - |e|]
  {
    if i + |x| <= |e| + |b| {
      assert (e + b)[i..i + |x|] == e[i..] + b[..i + |x| - |e|];
    }
  }

  /** A redaction that holds no marker changed nothing. */
  lemma {:induction false} UnmarkedIsSame(tokens: seq<Bytes>, s: Bytes)
    requires Tokens(tokens) && !Occurs(MARKER, Redact(tokens, s))
    ensures Redact(tokens, s) == s
  {
    if tokens != [] {
      var t := tokens[0];
      if Occurs(t, s) {
        FoundIsMarked(s, t);
        OccursInItself(MARKER);
        MarkerTextStays(tokens[1..], MARKER, Replace(s, t));
      }
      ReplaceNothing(s, t);
      UnmarkedIsSame(tokens[1..], s);
    }
  }

  lemma {:induction false} RedactEndsLine(tokens: seq<Bytes>, a: Bytes)
    requires OneLine(tokens) && EndsLine(a)
    ensures EndsLine(Redact(tokens, a))
  {
    if tokens != [] {
      ReplaceByLines(a, [], tokens[0]);
      RedactEndsLine(tokens[1..], Replace(a, tokens[0]));
    }
  }

  /** Whole lines are emitted redacted: no token crosses their end. */
  lemma SealedByLine(tokens: seq<Bytes>, hold: nat, e: Bytes, lines: Bytes, rest: Bytes)
    requires OneLine(tokens) && Clears(tokens, hold) && EndsLine(lines) && Sealed(tokens, e, lines + rest)
    ensures Sealed(tokens, e + Redact(tokens, lines), rest)
  {
    hide Redact, OccursAt;
    var after := Redact(tokens, lines);
    RedactEndsLine(tokens, lines);
    forall t, more, i | t in tokens && 0 <= i < |e + after| ensures !OccursAt(t, (e + after) + (rest + more), i) {
      assert (e + lines) + (rest + more) == e + ((lines + rest) + more);
      if OccursAt(t, (e + after) + (rest + more), i) {
        InsideLine(t, e + after, rest + more, i);
        if i < |e| {
          KeptAcross(tokens, e, lines, t, i);
          Fits(t, e + lines, i);
          OccursBefore(t, e + lines, rest + more, i);
        } else {
          OccursBehind(t, e, after, i);
          NothingLeft(tokens, lines);
        }
        assert false;
      }
    }
  }

  lemma NotBefore(x: Bytes, s: Bytes, i: int)
    requires OccursAt(x, s, i)
    ensures i >= 0
  {
  }

  lemma Fits(x: Bytes, s: Bytes, i: int)
    requires OccursAt(x, s, i)
    ensures i + |x| <= |s|
  {
  }

  lemma Reads(x: Bytes, s: Bytes, i: nat, j: nat)
    requires OccursAt(x, s, i) && i <= j < i + |x| && j < |s|
    ensures s[j] in x
  {
    assert s[i..i + |x|][j - i] == s[j];
  }

  /** A token of one line that begins before the end of a line ends before it. */
  lemma InsideLine(x: Bytes, a: Bytes, b: Bytes, i: nat)
    requires EndsLine(a) && NEWLINE !in x && i < |a| && OccursAt(x, a + b, i)
    ensures i + |x| <= |a| && OccursAt(x, a, i)
  {
    if i + |x| > |a| {
      Reads(x, a + b, i, |a| - 1);
    } else {
      OccursBefore(x, a, b, i);
    }
  }

  /** Of a long line all but a tail is emitted: a token that begins before the tail ends in it. */
  lemma SealedByTail(tokens: seq<Bytes>, hold: nat, e: Bytes, p: Bytes, front: Bytes, tail: Bytes)
    requires OneLine(tokens) && Clears(tokens, hold) && Sealed(tokens, e, p)
    requires Redact(tokens, p) == front + tail && (front == [] || |tail| >= hold)
    ensures Sealed(tokens, e + Redact(tokens, front), tail)
  {
    hide Redact, OccursAt;
    FrontIsClean(tokens, hold, p, front, tail);
    forall t, more, i | t in tokens && 0 <= i < |e + front| ensures !OccursAt(t, (e + front) + (tail + more), i) {
      var after := front + tail;
      assert (e + front) + (tail + more) == (e + after) + more;
      if OccursAt(t, (e + after) + more, i) {
        TailHolds(tokens, hold, e, p, front, tail, t, more, i);
        assert false;
      }
    }
  }

  lemma FrontIsClean(tokens: seq<Bytes>, hold: nat, p: Bytes, front: Bytes, tail: Bytes)
    requires OneLine(tokens) && Clears(tokens, hold) && Redact(tokens, p) == front + tail
    ensures Redact(tokens, front) == front
  {
    hide Redact;
    NothingLeft(tokens, p);
    assert [] + front + tail == front + tail;
    NoSecretInside(tokens, [], front, tail);
    RedactNothing(tokens, front);
  }

  lemma TailHolds(tokens: seq<Bytes>, hold: nat, e: Bytes, p: Bytes, front: Bytes, tail: Bytes, t: Bytes, more: Bytes,
                  i: nat)
    requires OneLine(tokens) && Clears(tokens, hold) && Sealed(tokens, e, p) && t in tokens
    requires Redact(tokens, p) == front + tail && (front == [] || |tail| >= hold) && i < |e + front|
    ensures !OccursAt(t, (e + (front + tail)) + more, i)
  {
    hide Redact, OccursAt;
    var after := front + tail;
    assert e + p == e + (p + []);
    assert (e + p) + more == e + (p + more);
    if OccursAt(t, (e + after) + more, i) {
      if i + |t| <= |e + after| {
        OccursBefore(t, e + after, more, i);
        if i < |e| {
          KeptAcross(tokens, e, p, t, i);
        } else {
          OccursBehind(t, e, after, i);
          NothingLeft(tokens, p);
        }
      } else {
        Covers(t, e, after, more, i);
        UnmarkedIsSame(tokens, p);
      }
      assert false;
    }
  }

  /** There is no marker in what a token clear of it covers. */
  lemma Covers(x: Bytes, e: Bytes, after: Bytes, more: Bytes, i: nat)
    requires OccursAt(x, (e + after) + more, i) && i + |x| > |e + after| && i < |e| && ClearOfMarker(x)
    ensures !Occurs(MARKER, after)
  {
    forall j ensures !OccursAt(MARKER, after, j) {
      if OccursAt(MARKER, after, j) {
        var all, k := (e + after) + more, |e| + j - i;
        OccursBefore(MARKER, after, more, j);
        assert all == e + (after + more);
        OccursBehind(MARKER, e, after + more, |e| + j);
        SliceOfSlice(all, i, |x|, k, |MARKER|);
        assert x[k..k + |MARKER|] == MARKER;
        assert x[k..][..|MARKER|] == MARKER;
        assert ReachesMarker(x, k);
      }
    }
  }

  lemma SealedToTheEnd(tokens: seq<Bytes>, hold: nat, e: Bytes, p: Bytes)
    requires OneLine(tokens) && Clears(tokens, hold) && Sealed(tokens, e, p)
    ensures forall t <- tokens :: !Occurs(t, e + Redact(tokens, p))
  {
    hide Redact, OccursAt;
    NothingLeft(tokens, p);
    assert e + p == e + (p + []);
    forall t | t in tokens ensures !Occurs(t, e + Redact(tokens, p)) {
      forall i ensures !OccursAt(t, e + Redact(tokens, p), i) {
        if OccursAt(t, e + Redact(tokens, p), i) {
          NotBefore(t, e + Redact(tokens, p), i);
          if i < |e| {
            KeptAcross(tokens, e, p, t, i);
          } else {
            OccursBehind(t, e, Redact(tokens, p), i);
          }
          assert false;
        }
      }
    }
  }

  class Stream {
    const tokens: seq<Bytes>
    const hold: nat
    var pending: Bytes
    var emitted: Bytes
    ghost var seen: Bytes
    ghost var done: Bytes

    ghost predicate Valid()
      reads this
    {
      && OneLine(tokens) && hold > 0
      && (ShortLines(seen) ==> InStep(tokens, done, seen, emitted, pending))
      && (NoSecret(tokens, seen) ==> emitted + pending == seen)
      && (Clears(tokens, hold) ==> Sealed(tokens, emitted, pending))
    }

    /** The tail that is held back has the length of the longest token. */
    constructor (redactor: Redactor)
      requires redactor.Valid() && OneLine(redactor.tokens)
      ensures Valid() && seen == [] && emitted == [] && tokens == redactor.tokens
      ensures forall t <- tokens :: |t| <= hold
    {
      tokens, hold := redactor.tokens, if redactor.Longest() > 1 then redactor.Longest() else 1;
      pending, emitted, seen, done := [], [], [], [];
      new;
      RedactEmpty(tokens);
    }

    method Emit(data: Bytes)
      requires Tokens(tokens)
      modifies this`emitted
      ensures emitted == old(emitted) + Redact(tokens, data)
    {
      emitted := emitted + Redact(tokens, data);
    }

    /** One read of the pipe. */
    method Feed(data: Bytes)
      requires Valid()
      modifies this
      ensures Valid() && seen == old(seen) + data
    {
      hide Redact, ShortLines, NoSecret, InStep, Clears, Sealed;
      Prepare(data);
      ghost var sent := emitted;
      if Clears(tokens, hold) {
        SealedWithMore(tokens, emitted, pending, data);
      }
      seen := seen + data;
      pending := pending + data;
      var cut := LastLineEnd(pending);
      done := done + pending[..cut];
      if cut == 0 {
        assert pending[..cut] == [] && pending[cut..] == pending;
        if |pending| > LINE_LIMIT {
          ForwardLongLine();
        } else {
          assert emitted + [] == emitted;
        }
      } else {
        if NoSecret(tokens, seen) {
          assert seen == sent + pending[..cut] + pending[cut..];
          NoSecretInside(tokens, sent, pending[..cut], pending[cut..]);
          RedactNothing(tokens, pending[..cut]);
        }
        if Clears(tokens, hold) {
          assert pending == pending[..cut] + pending[cut..];
          SealedByLine(tokens, hold, sent, pending[..cut], pending[cut..]);
        }
        Emit(pending[..cut]);
        pending := pending[cut..];
      }
    }

    /** A line longer than the buffer: redact what there is, forward all but a tail long enough for a secret. */
    method ForwardLongLine()
      requires OneLine(tokens) && hold > 0 && !ShortLines(seen)
      requires NoSecret(tokens, seen) ==> emitted + pending == seen && Redact(tokens, pending) == pending
      requires Clears(tokens, hold) ==> Sealed(tokens, emitted, pending)
      modifies this`emitted, this`pending
      ensures Valid()
    {
      hide Redact, ShortLines, NoSecret, InStep, Clears, Sealed;
      ghost var sent := emitted;
      var redacted := Redact(tokens, pending);
      var kept := if |redacted| < hold then |redacted| else hold;
      var front, tail := redacted[..|redacted| - kept], redacted[|redacted| - kept..];
      assert front + tail == redacted;
      if NoSecret(tokens, seen) {
        assert seen == sent + front + tail;
        NoSecretInside(tokens, sent, front, tail);
        RedactNothing(tokens, front);
      }
      if Clears(tokens, hold) {
        SealedByTail(tokens, hold, sent, pending, front, tail);
      }
      Emit(front);
      pending := tail;
    }

    /** What the next read will find, for a stream in either of its two good states. */
    lemma Prepare(data: Bytes)
      requires Valid()
      ensures var all := pending + data;
              var cut := LastLineEnd(all);
              && (ShortLines(seen + data) ==>
                    && InStep(tokens, done + all[..cut], seen + data, emitted + Redact(tokens, all[..cut]), all[cut..])
                    && (cut == 0 ==> Redact(tokens, all[..cut]) == [] && |all| <= LINE_LIMIT))
              && (NoSecret(tokens, seen + data) ==> emitted + all == seen + data && Redact(tokens, all) == all)
    {
      hide Redact;
      RedactEmpty(tokens);
      var all := pending + data;
      var cut := LastLineEnd(all);
      if ShortLines(seen + data) {
        ShortPrefix(seen, data);
        LinesForwarded(tokens, done, seen, emitted, pending, data);
        assert cut == 0 ==> all[..cut] == [] && all[cut..] == all;
        LongLine(tokens, done + all[..cut], seen + data, emitted + Redact(tokens, all[..cut]), all[cut..]);
      }
      if NoSecret(tokens, seen + data) {
        assert [] + seen + data == seen + data;
        NoSecretInside(tokens, [], seen, data);
        assert emitted + all == seen + data;
        assert emitted + all + [] == seen + data;
        NoSecretInside(tokens, emitted, all, []);
        RedactNothing(tokens, all);
      }
    }

    /** The end of the output: what is pending is forwarded. */
    method Close()
      requires Valid()
      modifies this
      ensures seen == old(seen)
      ensures ShortLines(seen) ==> emitted == Redact(tokens, seen)
      ensures NoSecret(tokens, seen) ==> emitted == seen
      ensures Clears(tokens, hold) ==> forall t <- tokens :: !Occurs(t, emitted)
    {
      hide Redact, ShortLines, NoSecret, Clears, Sealed, Occurs;
      RedactEmpty(tokens);
      if ShortLines(seen) {
        RedactByLines(tokens, done, pending);
        assert pending == [] ==> done == seen;
      }
      if NoSecret(tokens, seen) {
        assert emitted + pending + [] == seen;
        NoSecretInside(tokens, emitted, pending, []);
        RedactNothing(tokens, pending);
      }
      if Clears(tokens, hold) {
        SealedToTheEnd(tokens, hold, emitted, pending);
        assert emitted + [] == emitted;
      }
      if pending != [] {
        Emit(pending);
        pending := [];
      }
    }
  }

  /** The bytes of all reads, in order. */
  function Joined(pieces: seq<Bytes>): Bytes {
    if pieces == [] then [] else Joined(pieces[..|pieces| - 1]) + pieces[|pieces| - 1]
  }

  /** A whole command's output through the stream: the result does not depend on how the reads were cut, and
      however long its lines are, no token clear of the marker is left in it. */
  method Forward(redactor: Redactor, pieces: seq<Bytes>) returns (emitted: Bytes)
    requires redactor.Valid() && OneLine(redactor.tokens)
    ensures ShortLines(Joined(pieces)) ==> emitted == Redact(redactor.tokens, Joined(pieces))
    ensures NoSecret(redactor.tokens, Joined(pieces)) ==> emitted == Joined(pieces)
    ensures (forall t <- redactor.tokens :: ClearOfMarker(t)) ==> forall t <- redactor.tokens :: !Occurs(t, emitted)
  {
    var stream := new Stream(redactor);
    for k := 0 to |pieces|
      invariant stream.Valid() && stream.tokens == redactor.tokens && fresh(stream)
      invariant stream.seen == Joined(pieces[..k])
    {
      stream.Feed(pieces[k]);
      assert pieces[..k + 1][..k] == pieces[..k];
    }
    assert pieces[..|pieces|] == pieces;
    stream.Close();
    emitted := stream.emitted;
  }

  // ---------------------------------------------------------------- the capture

  function Min(a: nat, b: nat): nat {
    if a < b then a else b
  }

  class Capture {
    const limit: nat
    var chunks: seq<Bytes>
    var kept: nat
    var total: nat
    ghost var seen: Bytes

    ghost predicate Valid()
      reads this
    {
      && total == |seen|
      && kept == Min(limit, total)
      && Joined(chunks) == seen[..kept]
    }

    constructor (limit: nat)
      ensures Valid() && seen == [] && this.limit == limit
    {
      this.limit := limit;
      chunks, kept, total, seen := [], 0, 0, [];
    }

    method Feed(data: Bytes)
      requires Valid()
      modifies this
      ensures Valid() && seen == old(seen) + data
    {
      ghost var before := seen;
      total := total + |data|;
      seen := seen + data;
      if kept < limit {
        var room := limit - kept;
        var piece := data[..Min(room, |data|)];
        assert before[..kept] == before;
        assert (chunks + [piece])[..|chunks|] == chunks;
        chunks := chunks + [piece];
        kept := kept + Min(|data|, room);
        assert seen[..kept] == before + piece;
      } else {
        assert seen[..kept] == before[..kept];
      }
    }

    predicate Truncated()
      reads this
    {
      total > kept
    }

    /** The kept bytes: all of them, or the first `limit` less the last `hold` when something was cut off. */
    method Data(hold: nat) returns (data: Bytes)
      requires Valid()
      ensures Truncated() <==> |seen| > limit
      ensures data == if |seen| <= limit then seen else seen[..if hold <= limit then limit - hold else 0]
    {
      data := Joined(chunks);
      if Truncated() && hold > 0 {
        data := data[..if hold <= |data| then |data| - hold else 0];
      }
    }
  }
}
