/** What sequential variable substitution means: when the iteration order cannot matter, and what no
    variable can do to the markup of a template. */
module Substitution {
  import opened Wrappers
  import opened Lists
  import opened Strings
  import opened Html
  import opened Paths
  import opened Templates

  /** A template read as pieces. */
  datatype Token = Literal(text: string) | Slot(key: string)

  function Write(t: Token): string {
    match t
    case Literal(text) => text
    case Slot(key) => Placeholder(key)
  }

  function Flatten(ts: seq<Token>): string {
    if ts == [] then "" else Write(ts[0]) + Flatten(ts[1..])
  }

  predicate IsBrace(c: char) {
    c == '{' || c == '}'
  }

  predicate BraceFree(s: string) {
    forall i :: 0 <= i < |s| ==> !IsBrace(s[i])
  }

  /** Text that cannot take part in an opening `{{`: every `{` is followed, within the text, by a
      character other than `{`.  Brace-free text is inert, and so is a CSS rule. */
  predicate Inert(s: string) {
    forall i :: 0 <= i < |s| && s[i] == '{' ==> i + 1 < |s| && s[i + 1] != '{'
  }

  predicate GoodToken(t: Token) {
    match t
    case Literal(text) => Inert(text)
    case Slot(key) => BraceFree(key)
  }

  predicate GoodTemplate(ts: seq<Token>) {
    forall t :: t in ts ==> GoodToken(t)
  }

  predicate GoodVariables(variables: map<string, string>) {
    forall k :: k in variables ==> BraceFree(k) && Inert(variables[k])
  }

  // ----- One replacement ------------------------------------------------------------------------

  function FillToken(t: Token, key: string, value: string): Token {
    if t == Slot(key) then Literal(value) else t
  }

  function Fill(ts: seq<Token>, key: string, value: string): (r: seq<Token>)
    ensures |r| == |ts| && forall i :: 0 <= i < |ts| ==> r[i] == FillToken(ts[i], key, value)
  {
    if ts == [] then [] else [FillToken(ts[0], key, value)] + Fill(ts[1..], key, value)
  }

  lemma PlaceholderChars(key: string)
    ensures var p := Placeholder(key);
            && |p| == |key| + 4
            && p[0] == '{' && p[1] == '{' && p[|p| - 2] == '}' && p[|p| - 1] == '}'
            && p[2..|p| - 2] == key
            && forall i :: 0 <= i < |key| ==> p[i + 2] == key[i]
  {
  }

  /** At some position of the text, the text and the pattern agree as far as both go: the text holds the
      pattern, or ends with a beginning of it. */
  predicate Meets(text: string, pat: string) {
    exists i :: 0 <= i < |text| && MeetsAt(text, pat, i)
  }

  predicate MeetsAt(text: string, pat: string, i: int)
    requires 0 <= i <= |text|
  {
    text[i..] <= pat || pat <= text[i..]
  }

  lemma InertNeverMeets(text: string, key: string)
    requires Inert(text)
    ensures !Meets(text, Placeholder(key))
  {
    var p := Placeholder(key);
    forall i | 0 <= i < |text| ensures !MeetsAt(text, p, i) {
      assert text[i..][0] == text[i];
      if text[i] == '{' {
        assert text[i..][1] == text[i + 1];
      }
    }
  }

  /** No match begins inside text that does not meet the placeholder, or inside a slot of another key. */
  lemma NoMatchInLiteral(text: string, rest: string, key: string, i: nat)
    requires !Meets(text, Placeholder(key)) && i < |text|
    ensures !OccursAt(text + rest, Placeholder(key), i)
  {
    var p := Placeholder(key);
    assert (text + rest)[i..] == text[i..] + rest;
    assert p <= text[i..] + rest ==> MeetsAt(text, p, i) by {
      if p <= text[i..] + rest {
        Comparable(p, text[i..], rest);
      }
    }
  }

  lemma Comparable(p: string, a: string, b: string)
    requires p <= a + b
    ensures p <= a || a <= p
  {
    if |p| <= |a| {
      assert p == (a + b)[..|p|] == a[..|p|];
    } else {
      assert p[..|a|] == (a + b)[..|a|] == a;
    }
  }

  lemma NoMatchInSlot(other: string, rest: string, key: string, i: nat)
    requires BraceFree(other) && BraceFree(key) && other != key && i < |Placeholder(other)|
    ensures !OccursAt(Placeholder(other) + rest, Placeholder(key), i)
  {
    PlaceholderChars(key);
    PlaceholderChars(other);
    var q, p := Placeholder(other), Placeholder(key);
    var s := q + rest;
    if i > 0 {
      MatchAt(s, p, i, 0);
      MatchAt(s, p, i, 1);
      assert s[i] == q[i] && s[2] == q[2];
    } else {
      var d := Difference(key, other);
      MatchAt(s, p, 0, 2 + d);
      assert s[2 + d] == q[2 + d];
    }
  }

  /** Where two different brace-free keys, each closed by a brace, first differ. */
  lemma Difference(key: string, other: string) returns (d: nat)
    requires BraceFree(key) && BraceFree(other) && key != other
    ensures d <= |key| && d <= |other|
    ensures Placeholder(key)[2 + d] != Placeholder(other)[2 + d]
  {
    PlaceholderChars(key);
    PlaceholderChars(other);
    if |key| < |other| {
      d := |key|;
    } else if |other| < |key| {
      d := |other|;
    } else {
      d :| 0 <= d < |key| && key[d] != other[d];
    }
  }

  /** A piece in which no placeholder of `key` begins, except as that slot. */
  predicate SafeToken(t: Token, key: string) {
    match t
    case Literal(text) => !Meets(text, Placeholder(key))
    case Slot(other) => BraceFree(other)
  }

  predicate SafeTokens(ts: seq<Token>, key: string) {
    forall t :: t in ts ==> SafeToken(t, key)
  }

  lemma GoodIsSafe(ts: seq<Token>, key: string)
    requires GoodTemplate(ts)
    ensures SafeTokens(ts, key)
  {
    forall t | t in ts ensures SafeToken(t, key) {
      assert GoodToken(t);
      if t.Literal? {
        InertNeverMeets(t.text, key);
      }
    }
  }

  lemma ReplaceInToken(t: Token, rest: string, key: string, value: string)
    requires SafeToken(t, key) && BraceFree(key)
    ensures ReplaceAll(Write(t) + rest, Placeholder(key), value)
            == Write(FillToken(t, key, value)) + ReplaceAll(rest, Placeholder(key), value)
  {
    var p, w := Placeholder(key), Write(t);
    if t == Slot(key) {
      assert (p + rest)[|p|..] == rest;
    } else {
      forall i: nat | i < |w| ensures !OccursAt(w + rest, p, i) {
        if t.Literal? { NoMatchInLiteral(t.text, rest, key, i); } else { NoMatchInSlot(t.key, rest, key, i); }
      }
      ReplaceAllSkips(w, rest, p, value);
    }
  }

  lemma {:induction false} ReplaceIsFill(ts: seq<Token>, key: string, value: string)
    requires SafeTokens(ts, key) && BraceFree(key)
    ensures ReplaceAll(Flatten(ts), Placeholder(key), value) == Flatten(Fill(ts, key, value))
  {
    if ts != [] {
      ReplaceInToken(ts[0], Flatten(ts[1..]), key, value);
      ReplaceIsFill(ts[1..], key, value);
      assert Fill(ts, key, value)[1..] == Fill(ts[1..], key, value);
    }
  }

  // ----- All replacements -----------------------------------------------------------------------

  /** One simultaneous left-to-right substitution; slots without a variable stay. */
  function SubstituteToken(t: Token, variables: map<string, string>, escape: bool): Token {
    if t.Slot? && t.key in variables then Literal(Inserted(variables[t.key], escape)) else t
  }

  function Substitute(ts: seq<Token>, variables: map<string, string>, escape: bool): (r: seq<Token>)
    ensures |r| == |ts| && forall i :: 0 <= i < |ts| ==> r[i] == SubstituteToken(ts[i], variables, escape)
  {
    if ts == [] then [] else [SubstituteToken(ts[0], variables, escape)] + Substitute(ts[1..], variables, escape)
  }

  lemma {:induction false} EscapeKeepsInert(s: string)
    requires Inert(s)
    ensures Inert(Escape(s)) && (Escape(s) != "" && Escape(s)[0] == '{' <==> s != "" && s[0] == '{')
  {
    if s != "" {
      assert forall i :: 0 <= i < |s[1..]| ==> s[1..][i] == s[i + 1];
      EscapeKeepsInert(s[1..]);
      var e, rest := EscapeChar(s[0]), Escape(s[1..]);
      assert Escape(s) == e + rest;
      if s[0] == '{' {
        assert s[1] == s[1..][0];
      }
    }
  }

  /** With brace-free text and values and a variable for every slot, no brace is left. */
  lemma {:induction false} NoBraceRemains(ts: seq<Token>, variables: map<string, string>, escape: bool)
    requires forall t :: t in ts ==> if t.Literal? then BraceFree(t.text) else t.key in variables
    requires forall k :: k in variables ==> BraceFree(variables[k])
    ensures BraceFree(Flatten(Substitute(ts, variables, escape)))
  {
    if ts != [] {
      NoBraceRemains(ts[1..], variables, escape);
      assert ts[0] in ts;
      if ts[0].Slot? {
        EscapeKeepsBraceFree(variables[ts[0].key]);
      }
      var r := Substitute(ts, variables, escape);
      assert r[1..] == Substitute(ts[1..], variables, escape);
      assert BraceFree(Write(r[0]));
    }
  }

  lemma EscapeKeepsBraceFree(s: string)
    requires BraceFree(s)
    ensures BraceFree(Escape(s))
  {
    if s != "" {
      EscapeKeepsBraceFree(s[1..]);
    }
  }

  // ----- When the order cannot matter -----------------------------------------------------------

  /** The value of `k` does no harm to the variable `j`: it does not meet the placeholder of `j`, or `j` stands for
      that placeholder itself. */
  predicate Harmless(variables: map<string, string>, escape: bool, j: string, k: string) {
    j in variables && k in variables && j != k && Meets(Inserted(variables[k], escape), Placeholder(j)) ==>
      Inserted(variables[j], escape) == Placeholder(j)
  }

  ghost predicate AllHarmless(variables: map<string, string>, escape: bool) {
    forall j, k :: Harmless(variables, escape, j, k)
  }

  ghost predicate BraceFreeKeys(variables: map<string, string>) {
    forall k :: k in variables ==> BraceFree(k)
  }

  function RestrictTo(variables: map<string, string>, order: seq<string>): map<string, string> {
    map k | k in variables && k in order :: variables[k]
  }

  /** With the variables of `done` replaced, the only placeholders of `j` are its slots. */
  lemma SubstitutedIsSafe(ts: seq<Token>, variables: map<string, string>, done: seq<string>, j: string, escape: bool)
    requires GoodTemplate(ts) && AllHarmless(variables, escape)
    requires j in variables && j !in done && Inserted(variables[j], escape) != Placeholder(j)
    ensures SafeTokens(Substitute(ts, RestrictTo(variables, done), escape), j)
  {
    var r := Substitute(ts, RestrictTo(variables, done), escape);
    forall t | t in r ensures SafeToken(t, j) {
      var i :| 0 <= i < |r| && r[i] == t;
      assert ts[i] in ts && GoodToken(ts[i]);
      if t != ts[i] {
        assert Harmless(variables, escape, j, ts[i].key);
      } else if t.Literal? {
        InertNeverMeets(t.text, j);
      }
    }
  }

  lemma OneMoreFilled(ts: seq<Token>, variables: map<string, string>, init: seq<string>, k: string,
                      order: seq<string>, escape: bool)
    requires k in variables && forall x :: x in order <==> x in init || x == k
    ensures Fill(Substitute(ts, RestrictTo(variables, init), escape), k, Inserted(variables[k], escape))
            == Substitute(ts, RestrictTo(variables, order), escape)
  {
  }

  /** A variable that stands for its own placeholder changes nothing. */
  lemma {:induction false} ReplaceBySame(s: string, pat: string)
    requires pat != ""
    ensures ReplaceAll(s, pat, pat) == s
  {
    if s == "" {
    } else if pat <= s {
      ReplaceBySame(s[|pat|..], pat);
      assert s == pat + s[|pat|..];
    } else {
      ReplaceBySame(s[1..], pat);
    }
  }

  lemma {:induction false} FillBySame(ts: seq<Token>, key: string)
    ensures Flatten(Fill(ts, key, Placeholder(key))) == Flatten(ts)
  {
    if ts != [] {
      FillBySame(ts[1..], key);
      assert Fill(ts, key, Placeholder(key))[1..] == Fill(ts[1..], key, Placeholder(key));
    }
  }

  /** Replacing the next variable fills its slots. */
  lemma NextReplaced(ts: seq<Token>, variables: map<string, string>, done: seq<string>, j: string, escape: bool)
    requires GoodTemplate(ts) && BraceFreeKeys(variables) && AllHarmless(variables, escape)
    requires j in variables && j !in done
    ensures var r, v := Substitute(ts, RestrictTo(variables, done), escape), Inserted(variables[j], escape);
            ReplaceAll(Flatten(r), Placeholder(j), v) == Flatten(Fill(r, j, v))
  {
    var r, v := Substitute(ts, RestrictTo(variables, done), escape), Inserted(variables[j], escape);
    if v == Placeholder(j) {
      ReplaceBySame(Flatten(r), v);
      FillBySame(r, j);
    } else {
      SubstitutedIsSafe(ts, variables, done, j, escape);
      ReplaceIsFill(r, j, v);
    }
  }

  lemma {:induction false} ReplaceInOrderIsSubstitute(ts: seq<Token>, variables: map<string, string>,
                                                      order: seq<string>, escape: bool)
    requires GoodTemplate(ts) && BraceFreeKeys(variables) && AllHarmless(variables, escape)
    requires NoRepeats(order) && forall k :: k in order ==> k in variables
    ensures ReplaceInOrder(Flatten(ts), variables, order, escape)
            == Flatten(Substitute(ts, RestrictTo(variables, order), escape))
  {
    if order == [] {
      assert Substitute(ts, RestrictTo(variables, []), escape) == ts;
    } else {
      var init, k := order[..|order| - 1], order[|order| - 1];
      assert k in order && k !in init && forall x :: x in order <==> x in init || x == k;
      ReplaceInOrderIsSubstitute(ts, variables, init, escape);
      NextReplaced(ts, variables, init, k, escape);
      OneMoreFilled(ts, variables, init, k, order, escape);
    }
  }

  /** If every value is harmless, every order gives the text of the simultaneous substitution. */
  lemma AllOrdersSubstitute(ts: seq<Token>, variables: map<string, string>, escape: bool, result: string)
    requires GoodTemplate(ts) && BraceFreeKeys(variables) && AllHarmless(variables, escape)
    ensures MayReplace(Flatten(ts), variables, escape, result)
            <==> result == Flatten(Substitute(ts, variables, escape))
  {
    forall order | IsOrder(order, variables)
      ensures ReplaceInOrder(Flatten(ts), variables, order, escape) == Flatten(Substitute(ts, variables, escape))
    {
      ReplaceInOrderIsSubstitute(ts, variables, order, escape);
      assert RestrictTo(variables, order) == variables;
    }
    var order := Listing(variables.Keys);
    assert IsOrder(order, variables);
  }

  /** The order does not show in any template. */
  ghost predicate OrderNeverMatters(variables: map<string, string>, escape: bool) {
    forall ts, x, y ::
      GoodTemplate(ts) && MayReplace(Flatten(ts), variables, escape, x) && MayReplace(Flatten(ts), variables, escape, y)
      ==> x == y
  }

  /** For all values whatever: the order of the map never matters exactly when no value holds the placeholder of
      another variable or ends with a beginning of it, save variables that stand for their own placeholder. */
  lemma OrderMattersExactly(variables: map<string, string>, escape: bool)
    requires BraceFreeKeys(variables)
    ensures OrderNeverMatters(variables, escape) <==> AllHarmless(variables, escape)
  {
    if AllHarmless(variables, escape) {
      forall ts, x, y | GoodTemplate(ts) && MayReplace(Flatten(ts), variables, escape, x)
                        && MayReplace(Flatten(ts), variables, escape, y)
        ensures x == y
      {
        AllOrdersSubstitute(ts, variables, escape, x);
        AllOrdersSubstitute(ts, variables, escape, y);
      }
    } else {
      var j, k :| !Harmless(variables, escape, j, k);
      OrderShows(variables, escape, j, k);
    }
  }

  // ----- When it does ---------------------------------------------------------------------------

  /** What has to follow a value that meets the placeholder at `i` to complete it. */
  function Completion(value: string, pat: string, i: nat): string
    requires i <= |value|
  {
    if |value| - i < |pat| then pat[|value| - i..] else ""
  }

  /** The template of the slot `k` and that text: replacing `j` before `k` or after it makes a difference. */
  lemma OrderShows(variables: map<string, string>, escape: bool, j: string, k: string)
    requires BraceFreeKeys(variables) && !Harmless(variables, escape, j, k)
    ensures !OrderNeverMatters(variables, escape)
  {
    var v, w, p := Inserted(variables[j], escape), Inserted(variables[k], escape), Placeholder(j);
    var i :| 0 <= i < |w| && MeetsAt(w, p, i);
    var rest := Completion(w, p, i);
    CompletionIsInert(w, j, i);
    TwoTexts(variables, j, k, rest, escape);
    Completes(w, p, i);
    ReplaceChanges(w + rest, p, v, i);
    assert GoodTemplate(SlotAndText(k, rest));
  }

  lemma CompletionIsInert(value: string, key: string, i: nat)
    requires BraceFree(key) && i < |value|
    ensures Inert(Completion(value, Placeholder(key), i))
  {
    PlaceholderChars(key);
    var p, d := Placeholder(key), |value| - i;
    if d < |p| {
      assert forall x :: 0 <= x < |p| - d ==> p[d..][x] == p[d + x];
      assert forall x :: 2 <= x < |p| ==> p[x] != '{';
    }
  }

  lemma Completes(value: string, pat: string, i: nat)
    requires i < |value| && MeetsAt(value, pat, i)
    ensures OccursAt(value + Completion(value, pat, i), pat, i)
  {
    var rest := Completion(value, pat, i);
    assert (value + rest)[i..] == value[i..] + rest;
    if |value| - i < |pat| {
      assert value[i..] == pat[..|value| - i];
      assert value[i..] + rest == pat;
    }
  }

  function SlotAndText(k: string, rest: string): seq<Token> { [Slot(k), Literal(rest)] }

  lemma FlattenTwo(a: Token, b: Token)
    ensures Flatten([a, b]) == Write(a) + Write(b)
  {
    assert [a, b][1..] == [b] && [b][1..] == [];
    assert Flatten([b]) == Write(b) + "" == Write(b);
  }

  /** Replacing a variable in that template. */
  lemma ReplaceInSlotAndText(k: string, rest: string, x: string, value: string)
    requires BraceFree(k) && BraceFree(x) && Inert(rest)
    ensures ReplaceAll(Placeholder(k) + rest, Placeholder(x), value)
            == (if x == k then value else Placeholder(k)) + rest
  {
    var ts := SlotAndText(k, rest);
    assert GoodTemplate(ts);
    GoodIsSafe(ts, x);
    ReplaceIsFill(ts, x, value);
    assert Fill(ts, x, value) == [FillToken(Slot(k), x, value), Literal(rest)];
    FlattenTwo(Slot(k), Literal(rest));
    FlattenTwo(FillToken(Slot(k), x, value), Literal(rest));
  }

  /** All other variables first, then `j` and `k` in both orders. */
  lemma TwoTexts(variables: map<string, string>, j: string, k: string, rest: string, escape: bool)
    requires j in variables && k in variables && j != k && BraceFreeKeys(variables) && Inert(rest)
    ensures var text, w := Flatten(SlotAndText(k, rest)), Inserted(variables[k], escape) + rest;
            && MayReplace(text, variables, escape, w)
            && MayReplace(text, variables, escape, ReplaceAll(w, Placeholder(j), Inserted(variables[j], escape)))
  {
    var others := Listing(variables.Keys - {j, k});
    var text := Placeholder(k) + rest;
    FlattenTwo(Slot(k), Literal(rest));
    LeavesAlone(k, rest, variables, others, escape);
    ReplaceInSlotAndText(k, rest, j, Inserted(variables[j], escape));
    ReplaceInSlotAndText(k, rest, k, Inserted(variables[k], escape));
    LastTwo(text, variables, others, j, k, escape);
    LastTwo(text, variables, others, k, j, escape);
    OrderMayReplace(text, variables, others, j, k, escape);
    OrderMayReplace(text, variables, others, k, j, escape);
  }

  lemma OrderMayReplace(text: string, variables: map<string, string>, rest: seq<string>, j: string, k: string,
                        escape: bool)
    requires j in variables && k in variables && j != k && NoRepeats(rest)
    requires forall x :: x in rest <==> x in variables.Keys - {j, k}
    ensures MayReplace(text, variables, escape, ReplaceInOrder(text, variables, rest + [j, k], escape))
  {
    var order := rest + [j, k];
    assert order[|rest|] == j && order[|rest| + 1] == k;
    forall x | x in variables ensures x in order {
      if x != j && x != k {
        assert x in rest;
      }
    }
    assert IsOrder(order, variables);
  }

  lemma LastTwo(text: string, variables: map<string, string>, rest: seq<string>, j: string, k: string, escape: bool)
    requires j in variables && k in variables && forall x :: x in rest ==> x in variables
    ensures ReplaceInOrder(text, variables, rest + [j, k], escape)
            == ReplaceAll(ReplaceAll(ReplaceInOrder(text, variables, rest, escape),
                                     Placeholder(j), Inserted(variables[j], escape)),
                          Placeholder(k), Inserted(variables[k], escape))
  {
    var order := rest + [j, k];
    assert order[..|order| - 1] == rest + [j];
    assert (rest + [j])[..|rest|] == rest;
  }

  /** Other variables leave that template alone. */
  lemma {:induction false} LeavesAlone(k: string, rest: string, variables: map<string, string>, order: seq<string>,
                                       escape: bool)
    requires BraceFree(k) && Inert(rest) && k !in order
    requires forall x :: x in order ==> x in variables && BraceFree(x)
    ensures ReplaceInOrder(Placeholder(k) + rest, variables, order, escape) == Placeholder(k) + rest
  {
    if order != [] {
      var x := order[|order| - 1];
      assert x in order;
      LeavesAlone(k, rest, variables, order[..|order| - 1], escape);
      ReplaceInSlotAndText(k, rest, x, Inserted(variables[x], escape));
    }
  }

  /** How the lengths compare after a replacement. */
  lemma {:induction false} ReplaceLength(s: string, pat: string, sub: string)
    requires pat != ""
    ensures |sub| >= |pat| ==> |ReplaceAll(s, pat, sub)| >= |s|
    ensures |sub| <= |pat| ==> |ReplaceAll(s, pat, sub)| <= |s|
  {
    if s == "" {
    } else if pat <= s {
      ReplaceLength(s[|pat|..], pat, sub);
    } else {
      ReplaceLength(s[1..], pat, sub);
    }
  }

  /** Replacing a pattern that occurs by anything else changes the text. */
  lemma {:induction false} ReplaceChanges(s: string, pat: string, sub: string, i: nat)
    requires pat != "" && sub != pat && OccursAt(s, pat, i)
    ensures ReplaceAll(s, pat, sub) != s
  {
    if pat <= s {
      var rest := s[|pat|..];
      ReplaceLength(rest, pat, sub);
      DifferentHeads(pat, rest, sub, ReplaceAll(rest, pat, sub));
      assert s == pat + rest;
    } else {
      assert s[0..] == s && s[1..][i - 1..] == s[i..];
      ReplaceChanges(s[1..], pat, sub, i - 1);
      SameHead([s[0]], s[1..], ReplaceAll(s[1..], pat, sub));
      assert s == [s[0]] + s[1..];
    }
  }

  lemma DifferentHeads(a: string, b: string, c: string, d: string)
    requires a != c && (|a| <= |c| ==> |b| <= |d|) && (|a| >= |c| ==> |b| >= |d|)
    ensures a + b != c + d
  {
    if |a| == |c| {
      assert (a + b)[..|a|] == a && (c + d)[..|c|] == c;
    } else {
      assert |a + b| != |c + d|;
    }
  }

  lemma SameHead(a: string, b: string, d: string)
    requires b != d
    ensures a + b != a + d
  {
    assert (a + b)[|a|..] == b && (a + d)[|a|..] == d;
  }

  // ----- Inert values, and a failing input ------------------------------------------------------

  /** Values in which no placeholder begins: every iteration order gives the same text, that of the
      simultaneous substitution. */
  lemma OrderIsIrrelevant(ts: seq<Token>, variables: map<string, string>, escape: bool, result: string)
    requires GoodTemplate(ts) && GoodVariables(variables)
    ensures MayReplace(Flatten(ts), variables, escape, result)
            <==> result == Flatten(Substitute(ts, variables, escape))
  {
    forall j, k ensures Harmless(variables, escape, j, k) {
      if k in variables {
        EscapeKeepsInert(variables[k]);
        InertNeverMeets(Inserted(variables[k], escape), j);
      }
    }
    AllOrdersSubstitute(ts, variables, escape, result);
  }

  /** With `b`'s placeholder as the value of `a`, two orders of the map give two texts. */
  lemma PlaceholderInValueMatters(a: string, b: string, x: string)
    requires BraceFree(a) && BraceFree(b) && a != b
    ensures MayReplace(Placeholder(a), map[a := Placeholder(b), b := x], false, x)
    ensures MayReplace(Placeholder(a), map[a := Placeholder(b), b := x], false, Placeholder(b))
  {
    TwoTexts(map[a := Placeholder(b), b := x], b, a, "", false);
    FlattenTwo(Slot(a), Literal(""));
    assert Placeholder(a) + "" == Placeholder(a) && Placeholder(b) + "" == Placeholder(b);
    ReplaceInSlotAndText(b, "", b, x);
    assert x + "" == x;
  }

  // ----- Markup ---------------------------------------------------------------------------------

  lemma {:induction false} ReplaceKeepsSkeleton(s: string, pat: string, sub: string)
    requires pat != "" && Skeleton(pat) == Skeleton(sub) == ""
    ensures Skeleton(ReplaceAll(s, pat, sub)) == Skeleton(s)
  {
    if s == "" {
    } else if pat <= s {
      var rest := s[|pat|..];
      calc {
        Skeleton(ReplaceAll(s, pat, sub));
        { SkeletonConcat(sub, ReplaceAll(rest, pat, sub)); }
        Skeleton(ReplaceAll(rest, pat, sub));
        { ReplaceKeepsSkeleton(rest, pat, sub); }
        Skeleton(rest);
        { SkeletonConcat(pat, rest); assert s == pat + rest; }
        Skeleton(s);
      }
    } else {
      calc {
        Skeleton(ReplaceAll(s, pat, sub));
        { SkeletonConcat([s[0]], ReplaceAll(s[1..], pat, sub)); }
        Skeleton([s[0]]) + Skeleton(ReplaceAll(s[1..], pat, sub));
        { ReplaceKeepsSkeleton(s[1..], pat, sub); }
        Skeleton([s[0]]) + Skeleton(s[1..]);
        { SkeletonConcat([s[0]], s[1..]); assert s == [s[0]] + s[1..]; }
        Skeleton(s);
      }
    }
  }

  lemma PlaceholderSkeleton(key: string)
    ensures Skeleton(Placeholder(key)) == Skeleton(key)
  {
    SkeletonConcat("{{" + key, "}}");
    SkeletonConcat("{{", key);
    assert Skeleton("{{") == "" by { SkeletonOfPlain("{{"); }
    assert Skeleton("}}") == "" by { SkeletonOfPlain("}}"); }
  }

  /** In an HTML body, one step of the loop keeps the markup of every text exactly when the key
      itself holds no markup character; the value does not matter. */
  lemma StepKeepsMarkupExactly(key: string, value: string)
    ensures (forall text :: Skeleton(ReplaceAll(text, Placeholder(key), Escape(value))) == Skeleton(text))
            <==> NoMarkup(key)
  {
    var p := Placeholder(key);
    EscapeHasNoMarkup(value);
    SkeletonOfPlain(Escape(value));
    SkeletonOfPlain(key);
    PlaceholderSkeleton(key);
    if NoMarkup(key) {
      forall text ensures Skeleton(ReplaceAll(text, p, Escape(value))) == Skeleton(text) {
        ReplaceKeepsSkeleton(text, p, Escape(value));
      }
    } else {
      assert p[|p|..] == "" && ReplaceAll(p, p, Escape(value)) == Escape(value) + "";
      assert Escape(value) + "" == Escape(value);
      assert Skeleton(ReplaceAll(p, p, Escape(value))) != Skeleton(p);
    }
  }

  lemma {:induction false} OrderKeepsMarkup(text: string, variables: map<string, string>, order: seq<string>)
    requires forall k :: k in order ==> k in variables && NoMarkup(k)
    ensures Skeleton(ReplaceInOrder(text, variables, order, true)) == Skeleton(text)
  {
    if order != [] {
      var init, k := order[..|order| - 1], order[|order| - 1];
      OrderKeepsMarkup(text, variables, init);
      assert k in order;
      StepKeepsMarkupExactly(k, variables[k]);
      assert Skeleton(ReplaceAll(ReplaceInOrder(text, variables, init, true), Placeholder(k), Escape(variables[k])))
             == Skeleton(ReplaceInOrder(text, variables, init, true));
    }
  }

  /** No value adds, removes or reorders a markup character, whatever the iteration order. */
  lemma MarkupKept(body: string, variables: map<string, string>, result: string)
    requires MayReplace(body, variables, true, result) && forall k :: k in variables ==> NoMarkup(k)
    ensures Skeleton(result) == Skeleton(body)
  {
    var order :| IsOrder(order, variables) && result == ReplaceInOrder(body, variables, order, true);
    OrderKeepsMarkup(body, variables, order);
  }

  /** Rendering a configured HTML template: no variable, whatever its value and the iteration order,
      adds, removes or reorders a `<`, `>`, `"` or `'` of the template body. */
  lemma RenderKeepsMarkup(cfg: TemplatesConfig, files: Files, key: string, locale: string,
                          variables: map<string, string>, r: Result<Rendered, RenderError>,
                          subject: string, body: string, contentType: string)
    requires MayRender(cfg, files, key, locale, variables, r)
    requires Choose(cfg, files, key, locale, variables) == Ok(Interpolated(subject, body, contentType))
    requires IsHtml(contentType)
    requires forall k :: k in variables ==> NoMarkup(k)
    ensures r.Ok? && Skeleton(r.value.body) == Skeleton(body)
  {
    MarkupKept(body, variables, r.value.body);
  }
}
