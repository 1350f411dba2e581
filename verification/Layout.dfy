/** The operator-owned e-mail layout with its two slots. */
module Layout {
  import opened Wrappers
  import opened Strings
  import opened Html
  import opened Templates

  const BODY := "{{body}}"
  const FOOTER := "{{footer}}"
  const PLAIN_STYLE := "margin:0 0 16px;" + "line-height:1.65;" + "white-space:pre-wrap"
  const PLAIN_OPEN := "<p style=\"" + PLAIN_STYLE + "\">"
  const PLAIN_CLOSE := "</p>"

  /** The count check, made when a layout is loaded and again when it is applied. */
  predicate ValidLayout(layout: string) {
    Count(layout, BODY) == 1 && Count(layout, FOOTER) == 1
  }

  /** strings.NewReplacer(BODY, body, FOOTER, footer).Replace: one pass, the first pair first. */
  function ReplaceSlots(layout: string, body: string, footer: string): string {
    if layout == "" then ""
    else if BODY <= layout then body + ReplaceSlots(layout[|BODY|..], body, footer)
    else if FOOTER <= layout then footer + ReplaceSlots(layout[|FOOTER|..], body, footer)
    else [layout[0]] + ReplaceSlots(layout[1..], body, footer)
  }

  /** The body as it goes into a layout: text that is not HTML is escaped inside a paragraph. */
  function BodyHtml(body: string, contentType: string): string {
    if IsHtml(contentType) then body else PLAIN_OPEN + Escape(body) + PLAIN_CLOSE
  }

  function ApplyLayout(layout: string, body: string, contentType: string, footer: string): Option<string> {
    if !ValidLayout(layout) then None
    else Some(ReplaceSlots(layout, BodyHtml(body, contentType), footer))
  }

  // ----- The split of a layout ----------------------------------------------------------------

  /** The fixed text around the two slots, and which slot comes first. */
  datatype Parts = Parts(before: string, middle: string, after: string, bodyFirst: bool) {
    function Fill(body: string, footer: string): string {
      if bodyFirst then before + body + middle + footer + after
      else before + footer + middle + body + after
    }
  }

  predicate IsSlot(pat: string) {
    pat == BODY || pat == FOOTER
  }

  /** A slot begins with its only `{{`, so no slot begins inside another one. */
  lemma SlotsDoNotOverlap(s: string, p: string, q: string, i: nat, j: nat)
    requires IsSlot(p) && IsSlot(q) && OccursAt(s, p, i) && OccursAt(s, q, j)
    ensures i < j ==> i + |p| <= j
    ensures i == j ==> p == q
  {
    if i < j < i + |p| {
      var d := j - i;
      MatchAt(s, p, i, d);
      if d + 1 < |p| {
        MatchAt(s, p, i, d + 1);
      }
      MatchAt(s, q, j, 0);
      MatchAt(s, q, j, 1);
    }
    if i == j {
      MatchAt(s, p, i, 2);
      MatchAt(s, q, j, 2);
    }
  }

  /** The slot occurs at `i` and nowhere else. */
  ghost predicate OnlyAt(s: string, pat: string, i: nat) {
    OccursAt(s, pat, i) && forall k: nat :: OccursAt(s, pat, k) ==> k == i
  }

  lemma OccursInTail(s: string, pat: string, k: nat, n: nat)
    requires n <= |s|
    ensures OccursAt(s[n..], pat, k) <==> OccursAt(s, pat, n + k)
  {
    if k <= |s[n..]| {
      assert s[n..][k..] == s[n + k..];
    }
  }

  lemma {:induction false} CountZero(s: string, pat: string)
    requires pat != ""
    ensures Count(s, pat) == 0 <==> !Contains(s, pat)
  {
    if s == "" {
      assert forall i: nat :: !OccursAt(s, pat, i);
    } else if pat <= s {
      assert s[0..] == s;
      assert OccursAt(s, pat, 0);
    } else {
      CountZero(s[1..], pat);
      assert s[0..] == s;
      if i: nat :| OccursAt(s, pat, i) {
        OccursInTail(s, pat, i - 1, 1);
      }
      if i: nat :| OccursAt(s[1..], pat, i) {
        OccursInTail(s, pat, i, 1);
      }
    }
  }

  lemma {:induction false} CountOne(s: string, pat: string)
    requires IsSlot(pat)
    ensures Count(s, pat) == 1 <==> exists i: nat :: OnlyAt(s, pat, i)
  {
    if s == "" {
      assert forall i: nat :: !OccursAt(s, pat, i);
    } else if pat <= s {
      assert s[0..] == s;
      assert OccursAt(s, pat, 0);
      var n := |pat|;
      CountZero(s[n..], pat);
      if k: nat :| OccursAt(s[n..], pat, k) {
        OccursInTail(s, pat, k, n);
        assert !OnlyAt(s, pat, 0);
      } else {
        forall k: nat | OccursAt(s, pat, k) ensures k == 0 {
          SlotsDoNotOverlap(s, pat, pat, 0, k);
          if k > 0 { OccursInTail(s, pat, k - n, n); }
        }
        assert OnlyAt(s, pat, 0);
      }
    } else {
      CountOne(s[1..], pat);
      assert s[0..] == s;
      assert !OccursAt(s, pat, 0);
      if i: nat :| OnlyAt(s, pat, i) {
        ShiftOnly(s, pat, i);
      }
      if i: nat :| OnlyAt(s[1..], pat, i) {
        ShiftOnly(s, pat, i + 1);
      }
    }
  }

  lemma ShiftOnly(s: string, pat: string, i: nat)
    requires s != "" && !OccursAt(s, pat, 0) && i > 0
    ensures OnlyAt(s, pat, i) <==> OnlyAt(s[1..], pat, i - 1)
  {
    forall k: nat ensures OccursAt(s[1..], pat, k) <==> OccursAt(s, pat, k + 1) {
      OccursInTail(s, pat, k, 1);
    }
    if OnlyAt(s[1..], pat, i - 1) {
      forall k: nat | OccursAt(s, pat, k) ensures k == i {
        assert OccursAt(s[1..], pat, k - 1);
      }
    }
  }

  /** The text up to the first slot is copied. */
  lemma {:induction false} ReplaceSlotsSkips(a: string, rest: string, body: string, footer: string)
    requires forall i: nat :: i < |a| ==> !OccursAt(a + rest, BODY, i) && !OccursAt(a + rest, FOOTER, i)
    ensures ReplaceSlots(a + rest, body, footer) == a + ReplaceSlots(rest, body, footer)
  {
    if a == "" {
      assert a + rest == rest;
    } else {
      var s := a + rest;
      assert s[0..] == s && s[1..] == a[1..] + rest;
      assert !OccursAt(s, BODY, 0) && !OccursAt(s, FOOTER, 0);
      forall i: nat | i < |a[1..]| ensures !OccursAt(a[1..] + rest, BODY, i) && !OccursAt(a[1..] + rest, FOOTER, i) {
        OccursInTail(s, BODY, i, 1);
        OccursInTail(s, FOOTER, i, 1);
        assert !OccursAt(s, BODY, i + 1) && !OccursAt(s, FOOTER, i + 1);
      }
      ReplaceSlotsSkips(a[1..], rest, body, footer);
      assert [a[0]] + a[1..] == a;
    }
  }

  /** No slot begins in `s` before position `n`. */
  ghost predicate SlotFree(s: string, n: nat) {
    forall i: nat :: i < n ==> !OccursAt(s, BODY, i) && !OccursAt(s, FOOTER, i)
  }

  function Insert(slot: string, body: string, footer: string): string {
    if slot == BODY then body else footer
  }

  lemma ReplaceAtSlot(slot: string, rest: string, body: string, footer: string)
    requires IsSlot(slot)
    ensures ReplaceSlots(slot + rest, body, footer) == Insert(slot, body, footer) + ReplaceSlots(rest, body, footer)
  {
    var s := slot + rest;
    assert s[|slot|..] == rest && s[2] == slot[2];
    if slot == FOOTER {
      assert !(BODY <= s) by {
        assert BODY[2] != s[2];
      }
    }
  }

  lemma ReplaceFirstSlot(a: string, slot: string, rest: string, body: string, footer: string)
    requires IsSlot(slot) && SlotFree(a + (slot + rest), |a|)
    ensures ReplaceSlots(a + (slot + rest), body, footer)
            == a + (Insert(slot, body, footer) + ReplaceSlots(rest, body, footer))
  {
    ReplaceSlotsSkips(a, slot + rest, body, footer);
    ReplaceAtSlot(slot, rest, body, footer);
  }

  lemma ReplaceNoSlot(c: string, body: string, footer: string)
    requires SlotFree(c, |c|)
    ensures ReplaceSlots(c, body, footer) == c
  {
    assert c + "" == c;
    ReplaceSlotsSkips(c, "", body, footer);
  }

  /** The layout text is what the parts give around the slots themselves. */
  ghost predicate Splits(layout: string, parts: Parts) {
    layout == parts.Fill("{{body}}", "{{footer}}")
  }

  function First(parts: Parts): string { if parts.bodyFirst then BODY else FOOTER }

  function Second(parts: Parts): string { if parts.bodyFirst then FOOTER else BODY }

  lemma FillInOrder(parts: Parts, body: string, footer: string)
    ensures parts.Fill(body, footer)
            == parts.before + (Insert(First(parts), body, footer)
                               + (parts.middle + (Insert(Second(parts), body, footer) + parts.after)))
  {
    assert BODY[2] != FOOTER[2];
  }

  /** Where the pieces of a filled layout lie. */
  lemma Pieces(a: string, p: string, b: string, q: string, c: string)
    ensures var s, i := a + (p + (b + (q + c))), |a| + |p| + |b|;
            && s[..|a|] == a && s[|a|..] == p + (b + (q + c))
            && s[|a| + |p|..i] == b && s[|a| + |p|..] == b + (q + c)
            && s[i..] == q + c && s[i + |q|..] == c
  {
    var s, i := a + (p + (b + (q + c))), |a| + |p| + |b|;
    assert s[|a|..] == p + (b + (q + c));
    assert s[|a| + |p|..] == s[|a|..][|p|..] == b + (q + c);
    assert s[i..] == s[|a| + |p|..][|b|..] == q + c;
    assert s[i + |q|..] == s[i..][|q|..] == c;
  }

  /** A layout has at most one split. */
  lemma SplitUnique(layout: string, parts: Parts, other: Parts)
    requires ValidLayout(layout) && Splits(layout, parts) && Splits(layout, other)
    ensures parts == other
  {
    var i, j := SlotPositions(layout);
    SplitPositions(layout, parts, i, j);
    SplitPositions(layout, other, i, j);
  }

  lemma SlotPositions(layout: string) returns (i: nat, j: nat)
    requires ValidLayout(layout)
    ensures OnlyAt(layout, BODY, i) && OnlyAt(layout, FOOTER, j)
    ensures if i < j then i + |BODY| <= j else j + |FOOTER| <= i
  {
    CountOne(layout, BODY);
    CountOne(layout, FOOTER);
    i :| OnlyAt(layout, BODY, i);
    j :| OnlyAt(layout, FOOTER, j);
    SlotsApart(layout, i, j);
  }

  lemma SlotsApart(layout: string, i: nat, j: nat)
    requires OccursAt(layout, BODY, i) && OccursAt(layout, FOOTER, j)
    ensures if i < j then i + |BODY| <= j else j + |FOOTER| <= i
  {
    SlotsDoNotOverlap(layout, BODY, FOOTER, i, j);
    SlotsDoNotOverlap(layout, FOOTER, BODY, j, i);
    assert BODY[2] != FOOTER[2];
  }

  lemma SplitPositions(layout: string, parts: Parts, i: nat, j: nat)
    requires Splits(layout, parts) && OnlyAt(layout, BODY, i) && OnlyAt(layout, FOOTER, j)
    ensures var p, q := First(parts), Second(parts);
            var n, m := |parts.before|, |parts.before| + |p| + |parts.middle|;
            && (if parts.bodyFirst then i == n && j == m else j == n && i == m)
            && m + |q| <= |layout|
            && parts.before == layout[..n] && parts.middle == layout[n + |p|..m] && parts.after == layout[m + |q|..]
  {
    FillInOrder(parts, BODY, FOOTER);
    Pieces(parts.before, First(parts), parts.middle, Second(parts), parts.after);
    SlotsAt(parts.before, First(parts), parts.middle, Second(parts), parts.after);
  }

  lemma SlotsAt(a: string, p: string, b: string, q: string, c: string)
    ensures OccursAt(a + (p + (b + (q + c))), p, |a|)
    ensures OccursAt(a + (p + (b + (q + c))), q, |a| + |p| + |b|)
  {
    Pieces(a, p, b, q, c);
  }

  lemma SplitExists(layout: string) returns (parts: Parts)
    requires ValidLayout(layout)
    ensures Splits(layout, parts)
  {
    var i, j := SlotPositions(layout);
    if i < j {
      parts := Cut(layout, BODY, i, FOOTER, j, true);
    } else {
      parts := Cut(layout, FOOTER, j, BODY, i, false);
    }
  }

  lemma Cut(layout: string, p: string, i: nat, q: string, j: nat, bodyFirst: bool) returns (parts: Parts)
    requires OccursAt(layout, p, i) && OccursAt(layout, q, j) && i + |p| <= j
    requires if bodyFirst then p == BODY && q == FOOTER else p == FOOTER && q == BODY
    ensures Splits(layout, parts)
  {
    parts := Parts(layout[..i], layout[i + |p|..j], layout[j + |q|..], bodyFirst);
    assert layout[i..i + |p|] == layout[i..][..|p|] == p;
    assert layout[j..j + |q|] == layout[j..][..|q|] == q;
    assert layout == layout[..i] + layout[i..i + |p|] + layout[i + |p|..j] + layout[j..j + |q|] + layout[j + |q|..];
  }

  lemma ReplaceBothSlots(a: string, p: string, b: string, q: string, c: string, body: string, footer: string)
    requires IsSlot(p) && IsSlot(q)
    requires SlotFree(a + (p + (b + (q + c))), |a|) && SlotFree(b + (q + c), |b|) && SlotFree(c, |c|)
    ensures ReplaceSlots(a + (p + (b + (q + c))), body, footer)
            == a + (Insert(p, body, footer) + (b + (Insert(q, body, footer) + c)))
  {
    ReplaceFirstSlot(a, p, b + (q + c), body, footer);
    ReplaceFirstSlot(b, q, c, body, footer);
    ReplaceNoSlot(c, body, footer);
  }

  /** Applying a valid layout puts body and footer, whatever they contain, between its three parts. */
  lemma LayoutFills(layout: string, parts: Parts, body: string, footer: string)
    requires ValidLayout(layout) && Splits(layout, parts)
    ensures ReplaceSlots(layout, body, footer) == parts.Fill(body, footer)
  {
    var p, q, a, b, c := First(parts), Second(parts), parts.before, parts.middle, parts.after;
    FillInOrder(parts, body, footer);
    assert layout == a + (p + (b + (q + c))) by {
      FillInOrder(parts, BODY, FOOTER);
    }
    PartsSlotFree(layout, parts);
    ReplaceBothSlots(a, p, b, q, c, body, footer);
  }

  lemma PartsSlotFree(layout: string, parts: Parts)
    requires ValidLayout(layout) && Splits(layout, parts)
    ensures SlotFree(layout, |parts.before|)
    ensures SlotFree(parts.middle + (Second(parts) + parts.after), |parts.middle|)
    ensures SlotFree(parts.after, |parts.after|)
  {
    var p, q, a, b, c := First(parts), Second(parts), parts.before, parts.middle, parts.after;
    var i, j := SlotPositions(layout);
    SplitPositions(layout, parts, i, j);
    FillInOrder(parts, BODY, FOOTER);
    Pieces(a, p, b, q, c);
    TailSlotFree(layout, |a| + |p|, |b|, i, j);
    TailSlotFree(layout, |a| + |p| + |b| + |q|, |c|, i, j);
  }

  lemma TailSlotFree(layout: string, n: nat, k: nat, i: nat, j: nat)
    requires OnlyAt(layout, BODY, i) && OnlyAt(layout, FOOTER, j) && n <= |layout|
    requires (i < n || n + k <= i) && (j < n || n + k <= j)
    ensures SlotFree(layout[n..], k)
  {
    forall x: nat | x < k ensures !OccursAt(layout[n..], BODY, x) && !OccursAt(layout[n..], FOOTER, x) {
      OccursInTail(layout, BODY, x, n);
      OccursInTail(layout, FOOTER, x, n);
    }
  }

  /** The count check accepts exactly the texts in which each slot stands at one position. */
  lemma ValidExactly(layout: string)
    ensures ValidLayout(layout)
            <==> exists i: nat, j: nat :: OnlyAt(layout, "{{body}}", i) && OnlyAt(layout, "{{footer}}", j)
  {
    CountOne(layout, BODY);
    CountOne(layout, FOOTER);
  }
}
