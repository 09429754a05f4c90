/**
 * The Knowledge Hub's jargon annotator (`renderAnnotatedText`): it cuts the
 * article text into plain runs and highlighted occurrences of the detected
 * terms. Terms are processed longest first; for each term every still-plain
 * run is split on the term's case-insensitive occurrences, and runs already
 * highlighted are copied through untouched.
 *
 * Terms are matched literally (see README, "Left out": the source builds a
 * regular expression from the term without escaping it).
 */
module Annotator {
  import opened Wrappers
  import opened Strings
  import opened Types

  /**
   * A piece of the rendered article: a plain text run, or a highlighted
   * occurrence (a button) of the term at index `term` of the detected-terms
   * list, showing the article's own text.
   */
  datatype Segment = Plain(text: string) | Mark(text: string, term: nat)

  // ---------------------------------------------------------------------
  // Concatenation
  // ---------------------------------------------------------------------

  /** The text the segments show, in order. */
  function TextOf(segs: seq<Segment>): string {
    if segs == [] then "" else TextOf(segs[..|segs| - 1]) + segs[|segs| - 1].text
  }

  /** The strings of `parts`, concatenated. */
  function Join(parts: seq<string>): string {
    if parts == [] then "" else parts[0] + Join(parts[1..])
  }

  lemma {:induction false} TextOfAppend(a: seq<Segment>, b: seq<Segment>)
    ensures TextOf(a + b) == TextOf(a) + TextOf(b)
    decreases |b|
  {
    if b == [] {
      assert a + b == a;
    } else {
      var n := |b| - 1;
      var ab := a + b;
      assert ab[..|ab| - 1] == a + b[..n];
      TextOfAppend(a, b[..n]);
      calc {
        TextOf(ab);
        TextOf(a + b[..n]) + b[n].text;
        TextOf(a) + (TextOf(b[..n]) + b[n].text);
        TextOf(a) + TextOf(b);
      }
    }
  }

  lemma {:induction false} JoinAppend(a: seq<string>, b: seq<string>)
    ensures Join(a + b) == Join(a) + Join(b)
    decreases |a|
  {
    if a == [] {
      assert a + b == b;
    } else {
      assert (a + b)[1..] == a[1..] + b;
      assert (a + b)[0] == a[0];
      JoinAppend(a[1..], b);
    }
  }

  /** Joining a non-empty list is joining all but its last string, then the last. */
  lemma JoinSnoc(parts: seq<string>)
    requires parts != []
    ensures Join(parts) == Join(parts[..|parts| - 1]) + parts[|parts| - 1]
  {
    var n := |parts| - 1;
    JoinAppend(parts[..n], [parts[n]]);
    assert parts[..n] + [parts[n]] == parts;
    assert [parts[n]][1..] == [];
  }

  /** Where segment `k` starts in the concatenated text. */
  function Offset(segs: seq<Segment>, k: nat): nat
    requires k <= |segs|
  {
    |TextOf(segs[..k])|
  }

  /** Each segment shows exactly the characters of the concatenation at its own offset. */
  lemma SegmentIsSlice(segs: seq<Segment>, k: nat)
    requires k < |segs|
    ensures Offset(segs, k) + |segs[k].text| <= |TextOf(segs)|
    ensures TextOf(segs)[Offset(segs, k)..Offset(segs, k) + |segs[k].text|] == segs[k].text
  {
    assert segs == segs[..k] + [segs[k]] + segs[k + 1..];
    TextOfAppend(segs[..k] + [segs[k]], segs[k + 1..]);
    TextOfAppend(segs[..k], [segs[k]]);
    assert TextOf([segs[k]]) == segs[k].text by {
      assert [segs[k]][..0] == [];
    }
  }

  /** Each part shows exactly the characters of the concatenation at its own offset. */
  lemma PartIsSlice(parts: seq<string>, k: nat)
    requires k < |parts|
    ensures |Join(parts[..k])| + |parts[k]| <= |Join(parts)|
    ensures Join(parts)[|Join(parts[..k])|..|Join(parts[..k])| + |parts[k]|] == parts[k]
  {
    assert parts == parts[..k] + ([parts[k]] + parts[k + 1..]);
    JoinAppend(parts[..k], [parts[k]] + parts[k + 1..]);
    assert Join([parts[k]] + parts[k + 1..]) == parts[k] + Join(parts[k + 1..]) by {
      assert ([parts[k]] + parts[k + 1..])[1..] == parts[k + 1..];
    }
  }

  // ---------------------------------------------------------------------
  // Splitting one run on one term (`el.split(new RegExp(`(${term})`, 'gi'))`)
  // ---------------------------------------------------------------------

  /** The leftmost occurrence of `t` in `s`, ignoring case, at or after `from`. */
  function FirstMatch(s: string, t: string, from: nat): (r: Option<nat>)
    ensures r.Some? ==> from <= r.value && r.value + |t| <= |s|
    decreases |s| - from
  {
    if from + |t| > |s| then None
    else if MatchesAt(s, t, from) then Some(from)
    else FirstMatch(s, t, from + 1)
  }

  /** `FirstMatch` finds an occurrence, and none starts between `from` and it. */
  lemma {:induction false} FirstMatchIsLeftmost(s: string, t: string, from: nat)
    ensures FirstMatch(s, t, from).Some? ==> MatchesAt(s, t, FirstMatch(s, t, from).value)
    ensures forall q: nat :: from <= q && (FirstMatch(s, t, from).None? || q < FirstMatch(s, t, from).value) ==>
      !MatchesAt(s, t, q)
    decreases |s| - from
  {
    if from + |t| <= |s| && !MatchesAt(s, t, from) {
      FirstMatchIsLeftmost(s, t, from + 1);
    }
  }

  /**
   * The shape of a split on term `t`: an odd number of parts, the parts at
   * odd positions being occurrences of `t` (ignoring case) and the parts at
   * even positions containing none.
   */
  predicate Alternates(parts: seq<string>, t: string) {
    && |parts| % 2 == 1
    && (forall k :: 0 <= k < |parts| && k % 2 == 1 ==> EqualsIgnoreCase(parts[k], t))
    && (forall k :: 0 <= k < |parts| && k % 2 == 0 ==> Lacks(parts[k], t))
  }

  lemma PrependAlternates(pre: string, occ: string, rest: seq<string>, t: string)
    requires Lacks(pre, t) && EqualsIgnoreCase(occ, t) && Alternates(rest, t)
    ensures Alternates([pre, occ] + rest, t)
  {
    var parts := [pre, occ] + rest;
    forall k | 2 <= k < |parts|
      ensures parts[k] == rest[k - 2] && k % 2 == (k - 2) % 2
    {
    }
  }

  /** What `FirstMatch` finds is an occurrence. */
  lemma FirstMatchFound(s: string, t: string, i: nat)
    requires FirstMatch(s, t, 0) == Some(i)
    ensures EqualsIgnoreCase(s[i..i + |t|], t)
  {
    FirstMatchIsLeftmost(s, t, 0);
  }

  /** When `FirstMatch` finds nothing, the text contains no occurrence. */
  lemma NoFirstMatch(s: string, t: string)
    requires FirstMatch(s, t, 0).None?
    ensures Lacks(s, t)
  {
    FirstMatchIsLeftmost(s, t, 0);
  }

  /** The text before the leftmost occurrence contains no occurrence. */
  lemma PrefixBeforeFirstMatch(s: string, t: string, i: nat)
    requires t != "" && FirstMatch(s, t, 0) == Some(i)
    ensures Lacks(s[..i], t)
  {
    FirstMatchIsLeftmost(s, t, 0);
    forall q: nat | q <= i && MatchesAt(s[..i], t, q)
      ensures false
    {
      MatchInSlice(s, 0, i, t, q);
    }
  }

  /** One step of the split rejoins: the text before the occurrence, the occurrence, then the rest. */
  lemma JoinStep(s: string, i: nat, j: nat, rest: seq<string>)
    requires i <= j <= |s| && Join(rest) == s[j..]
    ensures Join([s[..i], s[i..j]] + rest) == s
  {
    var parts := [s[..i], s[i..j]] + rest;
    assert parts[1..] == [s[i..j]] + rest;
    assert parts[1..][1..] == rest;
    assert s == s[..i] + s[i..j] + s[j..];
  }

  /**
   * Splitting `s` on a regular expression that captures the whole term: the
   * text before each leftmost occurrence, then the occurrence itself, and so
   * on, ending with the text after the last occurrence. The parts rejoin to
   * `s`; `SplitAlternates` states what lies at odd and even positions.
   */
  function Split(s: string, t: string): (parts: seq<string>)
    requires t != ""
    ensures |parts| % 2 == 1
    decreases |s|
  {
    match FirstMatch(s, t, 0)
    case None => [s]
    case Some(i) => [s[..i], s[i..i + |t|]] + Split(s[i + |t|..], t)
  }

  /** The parts of a split concatenate back to the split text. */
  lemma {:induction false} SplitJoins(s: string, t: string)
    requires t != ""
    ensures Join(Split(s, t)) == s
    decreases |s|
  {
    match FirstMatch(s, t, 0)
    case None =>
      assert [s][1..] == [];
    case Some(i) =>
      var rest := Split(s[i + |t|..], t);
      assert Split(s, t) == [s[..i], s[i..i + |t|]] + rest;
      SplitJoins(s[i + |t|..], t);
      JoinStep(s, i, i + |t|, rest);
  }

  /** The parts of a split at odd positions are the occurrences, those at even positions contain none. */
  lemma {:induction false} SplitAlternates(s: string, t: string)
    requires t != ""
    ensures Alternates(Split(s, t), t)
    decreases |s|
  {
    match FirstMatch(s, t, 0)
    case None =>
      NoFirstMatch(s, t);
      assert Split(s, t) == [s];
    case Some(i) =>
      var rest := Split(s[i + |t|..], t);
      assert Split(s, t) == [s[..i], s[i..i + |t|]] + rest;
      SplitAlternates(s[i + |t|..], t);
      FirstMatchFound(s, t, i);
      PrefixBeforeFirstMatch(s, t, i);
      PrependAlternates(s[..i], s[i..i + |t|], rest, t);
  }

  /** A text is split into more than one part exactly when it contains the term; otherwise it stays whole. */
  lemma SplitWhole(s: string, t: string)
    requires t != ""
    ensures |Split(s, t)| == 1 <==> Lacks(s, t)
    ensures |Split(s, t)| == 1 ==> Split(s, t) == [s]
  {
    match FirstMatch(s, t, 0)
    case None =>
      NoFirstMatch(s, t);
    case Some(i) =>
      FirstMatchFound(s, t, i);
      assert MatchesAt(s, t, i);
  }

  /**
   * The split takes the leftmost occurrence each time: the first part is the
   * text before the leftmost occurrence, the second that occurrence, and the
   * rest is the split of what follows it. With `SplitWhole` this determines
   * the split uniquely.
   */
  lemma SplitTakesLeftmost(s: string, t: string)
    requires t != "" && !Lacks(s, t)
    ensures |Split(s, t)| > 1
    ensures var i := |Split(s, t)[0]|;
      && i + |t| <= |s|
      && MatchesAt(s, t, i)
      && (forall q: nat :: q < i ==> !MatchesAt(s, t, q))
      && Split(s, t) == [s[..i], s[i..i + |t|]] + Split(s[i + |t|..], t)
  {
    SplitWhole(s, t);
    FirstMatchIsLeftmost(s, t, 0);
    var i := FirstMatch(s, t, 0).value;
    assert Split(s, t) == [s[..i], s[i..i + |t|]] + Split(s[i + |t|..], t);
    assert |Split(s, t)[0]| == i;
  }

  // ---------------------------------------------------------------------
  // One pass: one term over all segments
  // ---------------------------------------------------------------------

  /**
   * The segments pushed for one split part: a part equal to the term
   * (ignoring case) becomes a highlight of the part's own text, any other
   * non-empty part a plain run, and an empty part nothing.
   */
  function ClassifyPart(part: string, t: string, idx: nat): (r: seq<Segment>)
    ensures TextOf(r) == part
  {
    var r := if EqualsIgnoreCase(part, t) then [Mark(part, idx)]
             else if part != "" then [Plain(part)]
             else [];
    assert r != [] ==> r[..0] == [];
    r
  }

  /** The segments pushed for all split parts of one plain run, in order. */
  function Classify(parts: seq<string>, t: string, idx: nat): seq<Segment> {
    if parts == [] then []
    else Classify(parts[..|parts| - 1], t, idx) + ClassifyPart(parts[|parts| - 1], t, idx)
  }

  /** The segments one segment becomes in the pass for term `t`: a highlight stays as it is. */
  function Rescan(el: Segment, t: string, idx: nat): seq<Segment>
    requires t != ""
  {
    if el.Mark? then [el] else Classify(Split(el.text, t), t, idx)
  }

  /** The pass for term `t` (at index `idx` of the detected terms) over all segments. */
  function Pass(els: seq<Segment>, t: string, idx: nat): seq<Segment>
    requires t != ""
  {
    if els == [] then [] else Pass(els[..|els| - 1], t, idx) + Rescan(els[|els| - 1], t, idx)
  }

  /** Classifying one more part appends that part's segments. */
  lemma ClassifyStep(parts: seq<string>, t: string, idx: nat, p: nat)
    requires p < |parts|
    ensures Classify(parts[..p + 1], t, idx) == Classify(parts[..p], t, idx) + ClassifyPart(parts[p], t, idx)
  {
    assert parts[..p + 1][..p] == parts[..p];
  }

  /** Rescanning one more segment appends what that segment becomes. */
  lemma PassStep(els: seq<Segment>, t: string, idx: nat, j: nat)
    requires t != "" && j < |els|
    ensures Pass(els[..j + 1], t, idx) == Pass(els[..j], t, idx) + Rescan(els[j], t, idx)
  {
    assert els[..j + 1][..j] == els[..j];
  }

  /** Dropping empty parts loses no text: the classified parts show their concatenation. */
  lemma {:induction false} ClassifyLossless(parts: seq<string>, t: string, idx: nat)
    ensures TextOf(Classify(parts, t, idx)) == Join(parts)
    decreases |parts|
  {
    if parts != [] {
      var n := |parts| - 1;
      var init := Classify(parts[..n], t, idx);
      assert Classify(parts, t, idx) == init + ClassifyPart(parts[n], t, idx);
      ClassifyLossless(parts[..n], t, idx);
      TextOfAppend(init, ClassifyPart(parts[n], t, idx));
      JoinSnoc(parts);
    }
  }

  /** A pass loses no text. */
  lemma {:induction false} PassLossless(els: seq<Segment>, t: string, idx: nat)
    requires t != ""
    ensures TextOf(Pass(els, t, idx)) == TextOf(els)
    decreases |els|
  {
    if els != [] {
      var n := |els| - 1;
      PassLossless(els[..n], t, idx);
      TextOfAppend(Pass(els[..n], t, idx), Rescan(els[n], t, idx));
      if els[n].Plain? {
        ClassifyLossless(Split(els[n].text, t), t, idx);
        SplitJoins(els[n].text, t);
      } else {
        assert [els[n]][..0] == [];
      }
    }
  }

  // ---------------------------------------------------------------------
  // What one pass produces
  // ---------------------------------------------------------------------

  /** Every highlight names a detected term and equals it, ignoring case. */
  predicate MarksMatchTerms(segs: seq<Segment>, terms: seq<string>) {
    forall k :: 0 <= k < |segs| && segs[k].Mark? ==>
      segs[k].term < |terms| && EqualsIgnoreCase(segs[k].text, terms[segs[k].term])
  }

  /** No plain run is empty. */
  predicate PlainsNonEmpty(segs: seq<Segment>) {
    forall k :: 0 <= k < |segs| && segs[k].Plain? ==> segs[k].text != ""
  }

  /** No plain run contains `t`, ignoring case. */
  predicate PlainsLack(segs: seq<Segment>, t: string) {
    forall k :: 0 <= k < |segs| && segs[k].Plain? ==> Lacks(segs[k].text, t)
  }

  /** What classifying split parts yields: highlights of the term, and non-empty plain parts that differ from it. */
  lemma {:induction false} ClassifyFacts(parts: seq<string>, t: string, idx: nat)
    ensures forall k :: 0 <= k < |Classify(parts, t, idx)| ==>
      var seg := Classify(parts, t, idx)[k];
      && (seg.Mark? ==> seg.term == idx && EqualsIgnoreCase(seg.text, t))
      && (seg.Plain? ==> seg.text != "" && !EqualsIgnoreCase(seg.text, t) && seg.text in parts)
    decreases |parts|
  {
    if parts != [] {
      var n := |parts| - 1;
      ClassifyFacts(parts[..n], t, idx);
      assert forall p :: p in parts[..n] ==> p in parts;
    }
  }

  /** Every part of a split of `s` is a slice of `s`, so it lacks whatever `s` lacks. */
  lemma SplitPartsInherit(s: string, t: string, u: string)
    requires t != "" && Lacks(s, u)
    ensures forall p :: p in Split(s, t) ==> Lacks(p, u)
  {
    var parts := Split(s, t);
    SplitJoins(s, t);
    forall j | 0 <= j < |parts|
      ensures Lacks(parts[j], u)
    {
      PartIsSlice(parts, j);
      SliceLacks(s, |Join(parts[..j])|, |Join(parts[..j])| + |parts[j]|, u);
    }
  }

  /** The plain runs a split-and-classify step yields lack the term. */
  lemma RescanPlainFacts(el: Segment, t: string, idx: nat)
    requires t != "" && el.Plain?
    ensures forall k :: 0 <= k < |Rescan(el, t, idx)| ==>
      var seg := Rescan(el, t, idx)[k];
      && (seg.Mark? ==> seg.term == idx && EqualsIgnoreCase(seg.text, t))
      && (seg.Plain? ==> seg.text != "" && Lacks(seg.text, t) && seg.text in Split(el.text, t))
  {
    var parts := Split(el.text, t);
    SplitAlternates(el.text, t);
    ClassifyFacts(parts, t, idx);
    var r := Rescan(el, t, idx);
    forall k | 0 <= k < |r| && r[k].Plain?
      ensures Lacks(r[k].text, t)
    {
      var j :| 0 <= j < |parts| && parts[j] == r[k].text;
      assert j % 2 == 0;
    }
  }

  /** What one segment becomes in a pass. */
  lemma RescanFacts(el: Segment, t: string, idx: nat)
    requires t != ""
    ensures el.Mark? ==> Rescan(el, t, idx) == [el]
    ensures el.Plain? ==> forall k :: 0 <= k < |Rescan(el, t, idx)| ==>
      var seg := Rescan(el, t, idx)[k];
      && (seg.Mark? ==> seg.term == idx && EqualsIgnoreCase(seg.text, t))
      && (seg.Plain? ==> seg.text != "" && Lacks(seg.text, t))
  {
    if el.Plain? {
      RescanPlainFacts(el, t, idx);
    }
  }

  /** A plain run that lacks `u` is split into plain runs that lack `u`. */
  lemma RescanKeepsLack(el: Segment, t: string, idx: nat, u: string)
    requires t != "" && (el.Plain? ==> Lacks(el.text, u))
    ensures PlainsLack(Rescan(el, t, idx), u)
  {
    if el.Plain? {
      RescanPlainFacts(el, t, idx);
      SplitPartsInherit(el.text, t, u);
    }
  }

  /**
   * A pass for term `t` leaves no empty plain run and no plain run containing
   * `t`.
   */
  lemma {:induction false} PassFacts(els: seq<Segment>, t: string, idx: nat)
    requires t != ""
    ensures PlainsNonEmpty(Pass(els, t, idx))
    ensures PlainsLack(Pass(els, t, idx), t)
    decreases |els|
  {
    if els != [] {
      var n := |els| - 1;
      PassFacts(els[..n], t, idx);
      RescanFacts(els[n], t, idx);
      var a, b := Pass(els[..n], t, idx), Rescan(els[n], t, idx);
      assert Pass(els, t, idx) == a + b;
    }
  }

  /** Plain runs that lacked `u` before a pass still lack it after. */
  lemma {:induction false} PassKeepsLack(els: seq<Segment>, t: string, idx: nat, u: string)
    requires t != "" && PlainsLack(els, u)
    ensures PlainsLack(Pass(els, t, idx), u)
    decreases |els|
  {
    if els != [] {
      var n := |els| - 1;
      PassKeepsLack(els[..n], t, idx, u);
      RescanKeepsLack(els[n], t, idx, u);
      var a, b := Pass(els[..n], t, idx), Rescan(els[n], t, idx);
      assert Pass(els, t, idx) == a + b;
    }
  }

  /** The new highlights of the pass for term number `idx` are occurrences of that term; old ones are kept. */
  lemma {:induction false} PassMarksMatch(els: seq<Segment>, idx: nat, terms: seq<string>)
    requires idx < |terms| && terms[idx] != ""
    requires MarksMatchTerms(els, terms)
    ensures MarksMatchTerms(Pass(els, terms[idx], idx), terms)
    decreases |els|
  {
    if els != [] {
      var n := |els| - 1;
      PassMarksMatch(els[..n], idx, terms);
      RescanFacts(els[n], terms[idx], idx);
      assert Pass(els, terms[idx], idx) == Pass(els[..n], terms[idx], idx) + Rescan(els[n], terms[idx], idx);
    }
  }

  /** A non-empty plain run that lacks `t` comes out of its split-and-classify step unchanged. */
  lemma RescanIdentity(el: Segment, t: string, idx: nat)
    requires t != "" && el.Plain? && el.text != "" && Lacks(el.text, t)
    ensures Rescan(el, t, idx) == [el]
  {
    var s := el.text;
    FirstMatchIsLeftmost(s, t, 0);
    assert FirstMatch(s, t, 0).None?;
    assert Split(s, t) == [s];
    assert !EqualsIgnoreCase(s, t) by {
      assert !MatchesAt(s, t, 0);
      if |s| == |t| { assert s[0..|t|] == s; }
    }
    var one: seq<string> := [s];
    assert one[..0] == [];
    assert Classify(one, t, idx) == [Plain(s)];
  }

  /** A pass over runs that are non-empty and lack `t` changes nothing. */
  lemma {:induction false} PassIdentity(els: seq<Segment>, t: string, idx: nat)
    requires t != ""
    requires PlainsNonEmpty(els) && PlainsLack(els, t)
    ensures Pass(els, t, idx) == els
    decreases |els|
  {
    if els != [] {
      var n := |els| - 1;
      PassIdentity(els[..n], t, idx);
      if els[n].Plain? {
        RescanIdentity(els[n], t, idx);
      }
      assert els == els[..n] + [els[n]];
    }
  }

  // ---------------------------------------------------------------------
  // Highlights are never re-split
  // ---------------------------------------------------------------------

  /** The offset and the segment that show character `p` of the concatenated text. */
  function SegmentAt(segs: seq<Segment>, p: nat): (nat, Segment)
    requires p < |TextOf(segs)|
  {
    var n := |segs| - 1;
    if p < |TextOf(segs[..n])| then SegmentAt(segs[..n], p) else (|TextOf(segs[..n])|, segs[n])
  }

  lemma {:induction false} SegmentAtAppend(a: seq<Segment>, b: seq<Segment>, p: nat)
    requires p < |TextOf(a)|
    ensures p < |TextOf(a + b)| && SegmentAt(a + b, p) == SegmentAt(a, p)
    decreases |b|
  {
    TextOfAppend(a, b);
    if b == [] {
      assert a + b == a;
    } else {
      var n := |b| - 1;
      assert (a + b)[..|a + b| - 1] == a + b[..n];
      SegmentAtAppend(a, b[..n], p);
    }
  }

  /**
   * A pass keeps every highlight where it was: the character at position `p`
   * that an earlier highlight covers is covered by the very same highlight,
   * at the same offset, afterwards.
   */
  lemma {:induction false} PassKeepsMarks(els: seq<Segment>, t: string, idx: nat, p: nat)
    requires t != ""
    requires p < |TextOf(els)| && SegmentAt(els, p).1.Mark?
    ensures p < |TextOf(Pass(els, t, idx))|
    ensures SegmentAt(Pass(els, t, idx), p) == SegmentAt(els, p)
    decreases |els|
  {
    var n := |els| - 1;
    var init := els[..n];
    PassLossless(init, t, idx);
    PassLossless(els, t, idx);
    assert Pass(els, t, idx) == Pass(init, t, idx) + Rescan(els[n], t, idx);
    if p < |TextOf(init)| {
      PassKeepsMarks(init, t, idx, p);
      SegmentAtAppend(Pass(init, t, idx), Rescan(els[n], t, idx), p);
    } else {
      var out := Pass(init, t, idx) + [els[n]];
      assert out[..|out| - 1] == Pass(init, t, idx);
    }
  }

  // ---------------------------------------------------------------------
  // Processing order: longest first, ties in list order
  // ---------------------------------------------------------------------

  /**
   * Term `i` is processed before term `j`: it is longer, or as long and
   * earlier in the list. Length is JavaScript's, in UTF-16 code units.
   */
  predicate Precedes(terms: seq<string>, i: nat, j: nat)
    requires i < |terms| && j < |terms|
  {
    JsLength(terms[i]) > JsLength(terms[j]) || (JsLength(terms[i]) == JsLength(terms[j]) && i < j)
  }

  /** All entries of `order` index into `terms`. */
  predicate InRange(order: seq<nat>, n: nat) {
    forall k :: 0 <= k < |order| ==> order[k] < n
  }

  /** `order` lists its indices in processing order. */
  predicate SortedBy(terms: seq<string>, order: seq<nat>)
    requires InRange(order, |terms|)
  {
    forall a, b :: 0 <= a < b < |order| ==> Precedes(terms, order[a], order[b])
  }

  /** Putting `o` in front of a sorted `rest` keeps it sorted when `o` precedes every entry of `rest`. */
  lemma ConsSorted(terms: seq<string>, o: nat, rest: seq<nat>)
    requires o < |terms| && InRange(rest, |terms|) && SortedBy(terms, rest)
    requires forall y :: y in rest ==> y < |terms| && Precedes(terms, o, y)
    ensures SortedBy(terms, [o] + rest)
  {
    var r := [o] + rest;
    forall a, b | 0 <= a < b < |r|
      ensures Precedes(terms, r[a], r[b])
    {
      assert r[b] == rest[b - 1];
      if a > 0 { assert r[a] == rest[a - 1]; }
    }
  }

  /** One step of the (stable) insertion sort the comparator `b.length - a.length` gives. */
  function Insert(terms: seq<string>, x: nat, order: seq<nat>): (r: seq<nat>)
    requires x < |terms| && InRange(order, |terms|)
    ensures |r| == |order| + 1 && InRange(r, |terms|)
    ensures forall y :: y in r <==> y == x || y in order
  {
    if order == [] then [x]
    else if Precedes(terms, x, order[0]) then [x] + order
    else
      assert forall y :: y in order <==> y == order[0] || y in order[1..];
      [order[0]] + Insert(terms, x, order[1..])
  }

  /** Inserting a new index into a sorted order keeps it sorted. */
  lemma {:induction false} InsertSorted(terms: seq<string>, x: nat, order: seq<nat>)
    requires x < |terms| && InRange(order, |terms|)
    requires SortedBy(terms, order) && x !in order
    ensures SortedBy(terms, Insert(terms, x, order))
    decreases |order|
  {
    if order != [] {
      var rest := order[1..];
      assert forall y :: y in rest ==> Precedes(terms, order[0], y) by {
        forall y | y in rest ensures Precedes(terms, order[0], y) {
          var c :| 0 <= c < |rest| && rest[c] == y;
          assert order[c + 1] == y;
        }
      }
      if Precedes(terms, x, order[0]) {
        ConsSorted(terms, x, order);
      } else {
        InsertSorted(terms, x, rest);
        ConsSorted(terms, order[0], Insert(terms, x, rest));
      }
    }
  }

  /** The indices `0 .. n-1` in processing order. */
  function SortIndices(terms: seq<string>, n: nat): (order: seq<nat>)
    requires n <= |terms|
    ensures |order| == n && InRange(order, n)
    ensures forall i :: 0 <= i < n ==> i in order
    ensures SortedBy(terms, order)
  {
    if n == 0 then []
    else
      var prev := SortIndices(terms, n - 1);
      var r := Insert(terms, n - 1, prev);
      assert forall k :: 0 <= k < |r| ==> r[k] in r;
      InsertSorted(terms, n - 1, prev);
      r
  }

  /** The order in which the detected terms are processed: `[...explanations].sort(...)`. */
  function ProcessingOrder(terms: seq<string>): seq<nat> {
    SortIndices(terms, |terms|)
  }

  /**
   * The processing order is a permutation of the term indices in which
   * lengths (in UTF-16 code units) never increase and terms of equal length
   * keep their list order.
   */
  lemma ProcessingOrderSpec(terms: seq<string>)
    ensures var order := ProcessingOrder(terms);
      && |order| == |terms|
      && (forall k :: 0 <= k < |order| ==> order[k] < |terms|)
      && (forall i :: 0 <= i < |terms| ==> i in order)
      && (forall a, b :: 0 <= a < b < |order| ==> order[a] != order[b])
      && (forall a, b :: 0 <= a < b < |order| ==> JsLength(terms[order[a]]) >= JsLength(terms[order[b]]))
      && (forall a, b :: 0 <= a < b < |order| && JsLength(terms[order[a]]) == JsLength(terms[order[b]]) ==>
            order[a] < order[b])
  {
  }

  /**
   * Lengths are compared as JavaScript measures them: a term of two
   * characters, one of them above U+FFFF, is as long as a three-letter term,
   * so the two keep their list order.
   */
  lemma SurrogatePairLengthTies()
    ensures JsLength("x\U{1D538}") == JsLength("abx") == 3
    ensures ProcessingOrder(["x\U{1D538}", "abx"]) == [0, 1]
  {
    var terms := ["x\U{1D538}", "abx"];
    assert JsLength(terms[0]) == 3 by {
      assert terms[0][..1] == "x";
      assert JsLength("x") == JsLength("") + CodeUnits('x');
    }
    assert JsLength(terms[1]) == 3 by {
      assert terms[1][..2] == "ab";
      assert "ab"[..1] == "a";
    }
    assert Precedes(terms, 0, 1);
    assert SortIndices(terms, 1) == [0];
  }

  // ---------------------------------------------------------------------
  // The whole annotation
  // ---------------------------------------------------------------------

  /** Every detected term is non-empty (see README, "Left out"). */
  predicate NonEmptyTerms(terms: seq<string>) {
    forall j :: 0 <= j < |terms| ==> terms[j] != ""
  }

  /** The segments after processing the terms listed in `order`, starting from the whole text as one run. */
  function Annotate(text: string, terms: seq<string>, order: seq<nat>): seq<Segment>
    requires NonEmptyTerms(terms) && InRange(order, |terms|)
  {
    if order == [] then [Plain(text)]
    else
      var last := order[|order| - 1];
      Pass(Annotate(text, terms, order[..|order| - 1]), terms[last], last)
  }

  /** The terms of the detected explanations, in list order. */
  function TermsOf(explanations: seq<TermExplanation>): (terms: seq<string>)
    ensures |terms| == |explanations|
    ensures forall j :: 0 <= j < |terms| ==> terms[j] == explanations[j].term
  {
    seq(|explanations|, j requires 0 <= j < |explanations| => explanations[j].term)
  }

  /** Processing one more index of `order` is one more pass. */
  lemma AnnotateStep(text: string, terms: seq<string>, order: seq<nat>, i: nat)
    requires NonEmptyTerms(terms) && InRange(order, |terms|) && i < |order|
    ensures Annotate(text, terms, order[..i + 1]) == Pass(Annotate(text, terms, order[..i]), terms[order[i]], order[i])
  {
    assert order[..i + 1][..i] == order[..i];
  }

  /** The rendered article: every detected term processed, longest first. */
  function Annotated(text: string, terms: seq<string>): seq<Segment>
    requires NonEmptyTerms(terms)
  {
    Annotate(text, terms, ProcessingOrder(terms))
  }

  /** The annotation loses no text: the segments concatenate back to the article. */
  lemma {:induction false} AnnotateLossless(text: string, terms: seq<string>, order: seq<nat>)
    requires NonEmptyTerms(terms) && InRange(order, |terms|)
    ensures TextOf(Annotate(text, terms, order)) == text
    decreases |order|
  {
    if order == [] {
      assert [Plain(text)][..0] == [];
    } else {
      var n := |order| - 1;
      AnnotateLossless(text, terms, order[..n]);
      PassLossless(Annotate(text, terms, order[..n]), terms[order[n]], order[n]);
    }
  }

  /** Every highlight is an occurrence of the term it names, ignoring case. */
  lemma {:induction false} AnnotateMarksMatch(text: string, terms: seq<string>, order: seq<nat>)
    requires NonEmptyTerms(terms) && InRange(order, |terms|)
    ensures MarksMatchTerms(Annotate(text, terms, order), terms)
    decreases |order|
  {
    if order != [] {
      var n := |order| - 1;
      AnnotateMarksMatch(text, terms, order[..n]);
      PassMarksMatch(Annotate(text, terms, order[..n]), order[n], terms);
    }
  }

  /**
   * Once at least one term is processed no plain run is empty, and no plain
   * run contains any processed term.
   */
  lemma AnnotatePlains(text: string, terms: seq<string>, order: seq<nat>)
    requires NonEmptyTerms(terms) && InRange(order, |terms|)
    ensures order != [] ==> PlainsNonEmpty(Annotate(text, terms, order))
    ensures forall k :: 0 <= k < |order| ==> PlainsLack(Annotate(text, terms, order), terms[order[k]])
  {
    if order != [] {
      var n := |order| - 1;
      PassFacts(Annotate(text, terms, order[..n]), terms[order[n]], order[n]);
    }
    forall k | 0 <= k < |order|
      ensures PlainsLack(Annotate(text, terms, order), terms[order[k]])
    {
      AnnotateLacks(text, terms, order, k);
    }
  }

  /** Once the term at `order[k]` is processed, no plain run contains it, whatever is processed later. */
  lemma {:induction false} AnnotateLacks(text: string, terms: seq<string>, order: seq<nat>, k: nat)
    requires NonEmptyTerms(terms) && InRange(order, |terms|) && k < |order|
    ensures PlainsLack(Annotate(text, terms, order), terms[order[k]])
    decreases |order|
  {
    var n := |order| - 1;
    var before := Annotate(text, terms, order[..n]);
    assert Annotate(text, terms, order) == Pass(before, terms[order[n]], order[n]);
    if k == n {
      PassFacts(before, terms[order[n]], order[n]);
    } else {
      assert order[..n][k] == order[k];
      AnnotateLacks(text, terms, order[..n], k);
      PassKeepsLack(before, terms[order[n]], order[n], terms[order[k]]);
    }
  }

  /** One more pass keeps every highlight already in place. */
  lemma MarksPersistStep(text: string, terms: seq<string>, order: seq<nat>, p: nat)
    requires NonEmptyTerms(terms) && InRange(order, |terms|) && order != []
    requires p < |TextOf(Annotate(text, terms, order[..|order| - 1]))|
    requires SegmentAt(Annotate(text, terms, order[..|order| - 1]), p).1.Mark?
    ensures p < |TextOf(Annotate(text, terms, order))|
    ensures SegmentAt(Annotate(text, terms, order), p) == SegmentAt(Annotate(text, terms, order[..|order| - 1]), p)
  {
    var last := order[|order| - 1];
    PassKeepsMarks(Annotate(text, terms, order[..|order| - 1]), terms[last], last, p);
  }

  /**
   * Longer terms take precedence: a character highlighted after the terms of
   * `order[..m]` are processed is still highlighted by the same segment, at
   * the same offset, once all of `order` is processed. A shorter term lying
   * inside a highlighted longer one is therefore never highlighted on its own.
   */
  lemma {:induction false} MarksPersist(text: string, terms: seq<string>, order: seq<nat>, m: nat, p: nat)
    requires NonEmptyTerms(terms) && InRange(order, |terms|) && m <= |order|
    requires p < |TextOf(Annotate(text, terms, order[..m]))|
    requires SegmentAt(Annotate(text, terms, order[..m]), p).1.Mark?
    ensures p < |TextOf(Annotate(text, terms, order))|
    ensures SegmentAt(Annotate(text, terms, order), p) == SegmentAt(Annotate(text, terms, order[..m]), p)
    decreases |order| - m
  {
    if m == |order| {
      assert order[..m] == order;
    } else {
      var next := order[..m + 1];
      assert next[..m] == order[..m];
      MarksPersistStep(text, terms, next, p);
      MarksPersist(text, terms, order, m + 1, p);
    }
  }

  /**
   * A term equal to one already processed (a duplicate, or the same term
   * again) highlights nothing new: its pass leaves the segments unchanged.
   */
  lemma RepeatedTermMarksNothing(text: string, terms: seq<string>, order: seq<nat>, k: nat, j: nat)
    requires NonEmptyTerms(terms) && InRange(order, |terms|)
    requires k < |order| && j < |terms| && terms[j] == terms[order[k]]
    ensures Pass(Annotate(text, terms, order), terms[j], j) == Annotate(text, terms, order)
  {
    AnnotatePlains(text, terms, order);
    PassIdentity(Annotate(text, terms, order), terms[j], j);
  }

  /**
   * A term that does not occur in a list of non-empty runs leaves the list
   * unchanged; in particular a term absent from the article highlights nothing.
   */
  lemma AbsentTermMarksNothing(els: seq<Segment>, t: string, idx: nat)
    requires t != "" && PlainsNonEmpty(els)
    requires forall k :: 0 <= k < |els| ==> Lacks(els[k].text, t)
    ensures Pass(els, t, idx) == els
  {
    PassIdentity(els, t, idx);
  }

  // ---------------------------------------------------------------------
  // The renderer
  // ---------------------------------------------------------------------

  /** The characters with a meaning of their own in a regular expression. */
  predicate IsRegexSyntax(c: char) {
    c in "\\^$.*+?()[]{}|"
  }

  /**
   * The terms the literal model covers: non-empty, and free of regular
   * expression syntax, so that the expression built from a term matches
   * exactly the term's own text.
   */
  predicate LiteralTerms(terms: seq<string>) {
    forall j :: 0 <= j < |terms| ==>
      terms[j] != "" && forall i :: 0 <= i < |terms[j]| ==> !IsRegexSyntax(terms[j][i])
  }

  /**
   * The whole annotation, as the renderer promises it: lossless; every
   * highlight is an occurrence of its term; with at least one term no plain
   * run is empty; and no plain run contains any detected term.
   */
  lemma AnnotatedFacts(text: string, terms: seq<string>, r: seq<Segment>)
    requires NonEmptyTerms(terms) && r == Annotated(text, terms)
    ensures TextOf(r) == text
    ensures MarksMatchTerms(r, terms)
    ensures terms != [] ==> PlainsNonEmpty(r)
    ensures forall j :: 0 <= j < |terms| ==> PlainsLack(r, terms[j])
  {
    var order := ProcessingOrder(terms);
    AnnotateLossless(text, terms, order);
    AnnotateMarksMatch(text, terms, order);
    AnnotatePlains(text, terms, order);
    ProcessingOrderSpec(terms);
    forall j | 0 <= j < |terms|
      ensures PlainsLack(r, terms[j])
    {
      assert j in order;
      var k :| 0 <= k < |order| && order[k] == j;
    }
  }

  /**
   * Every segment shows the article's own characters at its offset: a
   * highlight keeps the article's casing, not the casing of the term.
   */
  lemma AnnotatedKeepsCasing(text: string, terms: seq<string>, r: seq<Segment>)
    requires NonEmptyTerms(terms) && r == Annotated(text, terms)
    ensures forall k :: 0 <= k < |r| ==>
      && Offset(r, k) + |r[k].text| <= |text|
      && text[Offset(r, k)..Offset(r, k) + |r[k].text|] == r[k].text
  {
    AnnotateLossless(text, terms, ProcessingOrder(terms));
    forall k | 0 <= k < |r|
      ensures Offset(r, k) + |r[k].text| <= |text|
      ensures text[Offset(r, k)..Offset(r, k) + |r[k].text|] == r[k].text
    {
      SegmentIsSlice(r, k);
    }
  }

  /**
   * The parts of one split plain run, pushed in order (the inner `forEach`
   * over `parts`): occurrences of the term as highlights, other non-empty
   * parts as plain runs.
   */
  method PushParts(newElements: seq<Segment>, parts: seq<string>, term: string, idx: nat)
    returns (pushed: seq<Segment>)
    ensures pushed == newElements + Classify(parts, term, idx)
  {
    pushed := newElements;
    var p := 0;
    while p < |parts|
      invariant 0 <= p <= |parts|
      invariant pushed == newElements + Classify(parts[..p], term, idx)
    {
      var part := parts[p];
      ClassifyStep(parts, term, idx, p);
      if EqualsIgnoreCase(part, term) {
        pushed := pushed + [Mark(part, idx)];
      } else if part != "" {
        pushed := pushed + [Plain(part)];
      }
      p := p + 1;
    }
    assert parts[..p] == parts;
  }

  /**
   * The pass for one term (the `forEach` over `elements`): highlights are
   * pushed through as they are, plain runs are split on the term.
   */
  method RescanAll(elements: seq<Segment>, term: string, idx: nat) returns (newElements: seq<Segment>)
    requires term != ""
    ensures newElements == Pass(elements, term, idx)
    ensures TextOf(newElements) == TextOf(elements)
  {
    newElements := [];
    var j := 0;
    while j < |elements|
      invariant 0 <= j <= |elements|
      invariant newElements == Pass(elements[..j], term, idx)
    {
      var el := elements[j];
      PassStep(elements, term, idx, j);
      if el.Mark? {
        newElements := newElements + [el];
      } else {
        var parts := Split(el.text, term);
        newElements := PushParts(newElements, parts, term, idx);
      }
      j := j + 1;
    }
    assert elements[..j] == elements;
    PassLossless(elements, term, idx);
  }

  /**
   * `renderAnnotatedText` with an analysis present: starting from the whole
   * text as one plain run, each detected term in processing order rebuilds
   * the list of segments.
   */
  method RenderSegments(text: string, explanations: seq<TermExplanation>) returns (elements: seq<Segment>)
    requires LiteralTerms(TermsOf(explanations))
    ensures elements == Annotated(text, TermsOf(explanations))
    ensures TextOf(elements) == text
    ensures MarksMatchTerms(elements, TermsOf(explanations))
    ensures explanations != [] ==> PlainsNonEmpty(elements)
    ensures forall j :: 0 <= j < |explanations| ==> PlainsLack(elements, explanations[j].term)
  {
    var terms := TermsOf(explanations);
    var order := ProcessingOrder(terms);
    elements := ApplyPasses(text, explanations, order);
    AnnotatedFacts(text, terms, elements);
  }

  /** The passes of the terms at the indices of `order`, one after the other, starting from the whole text. */
  method ApplyPasses(text: string, explanations: seq<TermExplanation>, order: seq<nat>) returns (elements: seq<Segment>)
    requires NonEmptyTerms(TermsOf(explanations)) && InRange(order, |explanations|)
    ensures elements == Annotate(text, TermsOf(explanations), order)
  {
    var terms := TermsOf(explanations);
    elements := [Plain(text)];
    var i := 0;
    while i < |order|
      invariant 0 <= i <= |order|
      invariant elements == Annotate(text, terms, order[..i])
    {
      var idx := order[i];
      AnnotateStep(text, terms, order, i);
      elements := RescanAll(elements, explanations[idx].term, idx);
      i := i + 1;
    }
    assert order[..i] == order;
  }
}
