/**
 * The knowledge entry drawer
 * (src/components/admin/knowledge-base/KnowledgeDrawer.jsx): the generated
 * overview, the key topics, the mentioned services and the category
 * colour.
 */
module KnowledgeDrawer {
  import opened Js

  // ---------------------------------------------------------------------
  // The overview

  /** A character of the class `[.!?]`. */
  predicate IsTerminator(c: char)
  {
    c == '.' || c == '!' || c == '?'
  }

  predicate NotTerminator(c: char)
  {
    !IsTerminator(c)
  }

  predicate HasTerminator(s: string)
  {
    exists k :: 0 <= k < |s| && IsTerminator(s[k])
  }

  /** Where the first terminator stands. */
  function FirstTerminator(s: string): (i: nat)
    requires HasTerminator(s)
    ensures i < |s| && IsTerminator(s[i])
    ensures forall k :: 0 <= k < i ==> !IsTerminator(s[k])
  {
    if IsTerminator(s[0]) then 0
    else
      assert HasTerminator(s[1..]) by {
        var k :| 0 <= k < |s| && IsTerminator(s[k]);
        assert s[1..][k - 1] == s[k];
      }
      1 + FirstTerminator(s[1..])
  }

  /** Where the run of terminators starting at `i` ends. */
  function RunEnd(s: string, i: nat): (j: nat)
    requires i <= |s|
    ensures i <= j <= |s|
    ensures forall k :: i <= k < j ==> IsTerminator(s[k])
    ensures j == |s| || !IsTerminator(s[j])
    decreases |s| - i
  {
    if i < |s| && IsTerminator(s[i]) then RunEnd(s, i + 1) else i
  }

  /** `s.split(/[.!?]+/)`: the pieces between maximal runs of terminators, empty ones included. */
  function SplitRuns(s: string): (parts: seq<string>)
    ensures |parts| >= 1
    ensures forall k :: 0 <= k < |parts| ==> !HasTerminator(parts[k])
    ensures !HasTerminator(s) ==> parts == [s]
    decreases |s|
  {
    if !HasTerminator(s) then [s]
    else
      var i := FirstTerminator(s);
      var j := RunEnd(s, i);
      assert !HasTerminator(s[..i]);
      [s[..i]] + SplitRuns(s[j..])
  }

  /** The pieces laid end to end. */
  function Concat(parts: seq<string>): string
  {
    if parts == [] then "" else parts[0] + Concat(parts[1..])
  }

  /** The pieces of a split are the text with its terminators removed, in order. */
  lemma {:induction false} SplitReassembles(s: string)
    ensures Concat(SplitRuns(s)) == FilterChars(s, NotTerminator)
    decreases |s|
  {
    if !HasTerminator(s) {
      assert Concat([s]) == s + Concat([]);
    } else {
      var j := RunEnd(s, FirstTerminator(s));
      SplitReassembles(s[j..]);
      FilterFirstRun(s);
    }
  }

  /** Filtering the marks out keeps the text before the first run and drops the run. */
  lemma FilterFirstRun(s: string)
    requires HasTerminator(s)
    ensures var i := FirstTerminator(s);
            FilterChars(s, NotTerminator) == s[..i] + FilterChars(s[RunEnd(s, i)..], NotTerminator)
  {
    var i := FirstTerminator(s);
    var j := RunEnd(s, i);
    assert s == s[..i] + s[i..j] + s[j..];
    FilterCharsSkip(s[..i], s[i..j], s[j..], NotTerminator);
  }

  /** `.filter(s => s.trim().length > 0)`. */
  function NonBlankPieces(parts: seq<string>): (r: seq<string>)
    ensures |r| <= |parts|
    ensures forall k :: 0 <= k < |r| ==> !IsBlank(r[k]) && r[k] in parts
    ensures forall p :: p in r <==> p in parts && !IsBlank(p)
  {
    if parts == [] then []
    else
      assert forall p :: p in parts <==> p == parts[0] || p in parts[1..];
      (if !IsBlank(parts[0]) then [parts[0]] else []) + NonBlankPieces(parts[1..])
  }

  /** The filter keeps the pieces in order: it distributes over concatenation. */
  lemma {:induction false} NonBlankPiecesAppend(a: seq<string>, b: seq<string>)
    ensures NonBlankPieces(a + b) == NonBlankPieces(a) + NonBlankPieces(b)
  {
    if a == [] {
      assert a + b == b;
    } else {
      var h, ft, fb := (if !IsBlank(a[0]) then [a[0]] else []), NonBlankPieces(a[1..]), NonBlankPieces(b);
      calc {
        NonBlankPieces(a + b);
        { NonBlankPiecesUnfold(a + b); ConsAppend(a, b); }
        h + NonBlankPieces(a[1..] + b);
        { NonBlankPiecesAppend(a[1..], b); }
        h + (ft + fb);
        { AppendAssoc(h, ft, fb); }
        (h + ft) + fb;
        { NonBlankPiecesUnfold(a); }
        NonBlankPieces(a) + fb;
      }
    }
  }

  lemma NonBlankPiecesUnfold(a: seq<string>)
    requires a != []
    ensures NonBlankPieces(a) == (if !IsBlank(a[0]) then [a[0]] else []) + NonBlankPieces(a[1..])
  {
  }

  const NoContent := "No content available."

  /** The text the drawer reads: `entry.content_full || entry.content`. */
  function ContentOf(contentFull: Option<string>, content: Option<string>): (r: Option<string>)
    ensures contentFull.Some? && contentFull.value != "" ==> r == contentFull
    ensures contentFull.None? || contentFull.value == "" ==> r == content
  {
    if contentFull.Some? && contentFull.value != "" then contentFull else content
  }

  /** `generateOverview`: the first three non-blank sentences, joined by `'. '`, trimmed, with a closing full stop. */
  function Overview(content: Option<string>): (r: string)
    ensures content.None? || content.value == "" ==> r == NoContent
    ensures |r| >= 1 && r[|r| - 1] == '.'
  {
    if content.None? || content.value == "" then NoContent
    else Trim(Join(Prefix(NonBlankPieces(SplitRuns(content.value)), 3), ". ")) + "."
  }

  /** A join brings in no character that neither the pieces nor the separator hold. */
  lemma {:induction false} JoinAvoids(parts: seq<string>, sep: string, ch: char)
    requires ch !in sep
    requires forall k :: 0 <= k < |parts| ==> ch !in parts[k]
    ensures ch !in Join(parts, sep)
  {
    if |parts| > 1 {
      JoinAvoids(parts[1..], sep, ch);
    }
  }

  /** A text without sentence marks contains neither mark. */
  lemma MarkAbsent(p: string, ch: char)
    requires !HasTerminator(p) && IsTerminator(ch)
    ensures ch !in p
  {
  }

  /** Trimming only removes characters. */
  lemma TrimAvoids(s: string, ch: char)
    requires ch !in s
    ensures ch !in Trim(s)
  {
    var t := TrimStart(s);
    assert ch !in t by {
      forall k | 0 <= k < |t|
        ensures t[k] != ch
      {
        assert t[k] == s[|s| - |t| + k];
      }
    }
    var r := TrimEnd(t);
    forall k | 0 <= k < |r|
      ensures r[k] != ch
    {
      assert r[k] == t[k];
    }
  }

  /** The overview ends every sentence with a full stop: no `!` or `?` is left in it. */
  lemma OverviewHasOnlyFullStops(content: Option<string>)
    ensures '!' !in Overview(content) && '?' !in Overview(content)
  {
    if content.None? || content.value == "" {
      assert '!' !in NoContent && '?' !in NoContent;
    } else {
      var parts := Prefix(NonBlankPieces(SplitRuns(content.value)), 3);
      PiecesUnmarked(content.value);
      JoinedPiecesAvoid(parts, '!');
      JoinedPiecesAvoid(parts, '?');
    }
  }

  /** The first three non-blank pieces hold no sentence mark. */
  lemma PiecesUnmarked(s: string)
    ensures var parts := Prefix(NonBlankPieces(SplitRuns(s)), 3);
      forall k :: 0 <= k < |parts| ==> !HasTerminator(parts[k])
  {
    var all := SplitRuns(s);
    var kept := NonBlankPieces(all);
    forall k | 0 <= k < |kept|
      ensures !HasTerminator(kept[k])
    {
      var j :| 0 <= j < |all| && all[j] == kept[k];
    }
  }

  /** Pieces without sentence marks, joined, trimmed and closed by a full stop, hold no other mark. */
  lemma JoinedPiecesAvoid(parts: seq<string>, ch: char)
    requires forall k :: 0 <= k < |parts| ==> !HasTerminator(parts[k])
    requires ch == '!' || ch == '?'
    ensures ch !in Trim(Join(parts, ". ")) + "."
  {
    forall k | 0 <= k < |parts|
      ensures ch !in parts[k]
    {
      MarkAbsent(parts[k], ch);
    }
    JoinAvoids(parts, ". ", ch);
    TrimAvoids(Join(parts, ". "), ch);
  }

  /** A text with no sentence mark is its own overview, trimmed and closed by a full stop. */
  lemma SingleSentence(text: string)
    requires !HasTerminator(text) && !IsBlank(text)
    ensures Overview(Some(text)) == Trim(text) + "."
  {
    assert NonBlankPieces([text]) == [text] + NonBlankPieces([]);
  }

  /** A piece without marks, closed by one mark, splits off as the first piece. */
  lemma SplitAfterMark(s: string, p: string, mark: char, t: string)
    requires s == p + [mark] + t
    requires !HasTerminator(p) && IsTerminator(mark)
    requires t == [] || !IsTerminator(t[0])
    ensures SplitRuns(s) == [p] + SplitRuns(t)
  {
    assert s[|p|] == mark;
    assert forall k :: 0 <= k < |p| ==> s[k] == p[k];
    var i := FirstTerminator(s);
    assert i == |p|;
    assert RunEnd(s, |p| + 1) == |p| + 1 by {
      assert |p| + 1 == |s| || s[|p| + 1] == t[0];
    }
    assert s[..i] == p && s[|p| + 1..] == t;
  }

  /**
   * The overview is the first three non-blank sentences: three sentences
   * closed by marks, whatever follows them, give those three joined by
   * `'. '`, trimmed, with a closing full stop.
   */
  lemma OverviewFirstThree(a: string, b: string, c: string, m1: char, m2: char, m3: char, rest: string)
    requires !HasTerminator(a) && !HasTerminator(b) && !HasTerminator(c)
    requires !IsBlank(a) && !IsBlank(b) && !IsBlank(c)
    requires IsTerminator(m1) && IsTerminator(m2) && IsTerminator(m3)
    requires rest == [] || !IsTerminator(rest[0])
    ensures Overview(Some(a + [m1] + b + [m2] + c + [m3] + rest)) == Trim(a + ". " + b + ". " + c) + "."
  {
    var text := a + [m1] + b + [m2] + c + [m3] + rest;
    var tail := SplitRuns(rest);
    SplitThree(a, b, c, m1, m2, m3, rest);
    FirstThreeKept(a, b, c, NonBlankPieces(tail));
    NonBlankPiecesAppend([a, b, c], tail);
    JoinThree(a, b, c);
  }

  lemma SplitThree(a: string, b: string, c: string, m1: char, m2: char, m3: char, rest: string)
    requires !HasTerminator(a) && !HasTerminator(b) && !HasTerminator(c)
    requires b != [] && c != []
    requires IsTerminator(m1) && IsTerminator(m2) && IsTerminator(m3)
    requires rest == [] || !IsTerminator(rest[0])
    ensures SplitRuns(a + [m1] + b + [m2] + c + [m3] + rest) == [a, b, c] + SplitRuns(rest)
  {
    var t2 := c + [m3] + rest;
    var t1 := b + [m2] + t2;
    var text := a + [m1] + t1;
    Regroup(a, [m1], b, [m2], c, [m3], rest);
    LeadsUnmarked(c, [m3], rest);
    LeadsUnmarked(b, [m2], t2);
    SplitAfterMark(t2, c, m3, rest);
    SplitAfterMark(t1, b, m2, t2);
    SplitAfterMark(text, a, m1, t1);
    ConsThree(a, b, c, SplitRuns(rest));
  }

  lemma ConsThree<T>(a: T, b: T, c: T, xs: seq<T>)
    ensures [a] + ([b] + ([c] + xs)) == [a, b, c] + xs
  {
  }

  /** A text that starts with a non-empty piece without marks does not start with a mark. */
  lemma LeadsUnmarked(p: string, u: string, v: string)
    requires p != [] && !HasTerminator(p)
    ensures !IsTerminator((p + u + v)[0])
  {
    assert (p + u + v)[0] == p[0];
  }

  lemma Regroup(a: string, m1: string, b: string, m2: string, c: string, m3: string, rest: string)
    ensures a + m1 + b + m2 + c + m3 + rest == a + m1 + (b + m2 + (c + m3 + rest))
  {
  }

  lemma FirstThreeKept(a: string, b: string, c: string, more: seq<string>)
    requires !IsBlank(a) && !IsBlank(b) && !IsBlank(c)
    ensures Prefix(NonBlankPieces([a, b, c]) + more, 3) == [a, b, c]
  {
    assert NonBlankPieces([c]) == [c] by {
      NonBlankPiecesUnfold([c]);
      assert [c][1..] == [];
    }
    assert NonBlankPieces([b, c]) == [b, c] by {
      NonBlankPiecesUnfold([b, c]);
      assert [b, c][1..] == [c];
    }
    assert NonBlankPieces([a, b, c]) == [a, b, c] by {
      NonBlankPiecesUnfold([a, b, c]);
      assert [a, b, c][1..] == [b, c];
    }
  }

  lemma JoinThree(a: string, b: string, c: string)
    ensures Join([a, b, c], ". ") == a + ". " + b + ". " + c
  {
    var sep := ". ";
    assert [a, b, c][1..] == [b, c] && [b, c][1..] == [c];
    assert Join([c], sep) == c;
    assert Join([b, c], sep) == b + sep + c;
    assert Join([a, b, c], sep) == a + sep + (b + sep + c);
  }

  /** A text of sentence marks only has the empty overview `.`. */
  lemma MarksOnly()
    ensures Overview(Some("!?")) == "."
  {
    assert IsTerminator("!?"[0]);
    assert FirstTerminator("!?") == 0;
    assert RunEnd("!?", 0) == 2;
    assert SplitRuns("!?") == ["", ""];
    assert NonBlankPieces(["", ""]) == [];
  }

  // ---------------------------------------------------------------------
  // Key topics

  /** `\w`. */
  predicate IsWordChar(c: char)
  {
    'a' <= c <= 'z' || 'A' <= c <= 'Z' || '0' <= c <= '9' || c == '_'
  }

  predicate IsLetter(c: char)
  {
    'a' <= c <= 'z' || 'A' <= c <= 'Z'
  }

  /** The end of the run of letters starting at `i`. */
  function LetterRun(s: string, i: nat): (j: nat)
    requires i <= |s|
    ensures i <= j <= |s|
    ensures forall k :: i <= k < j ==> IsLetter(s[k])
    ensures j == |s| || !IsLetter(s[j])
    decreases |s| - i
  {
    if i < |s| && IsLetter(s[i]) then LetterRun(s, i + 1) else i
  }

  /** The end of the run of white space starting at `i`. */
  function SpaceRun(s: string, i: nat): (j: nat)
    requires i <= |s|
    ensures i <= j <= |s|
    ensures forall k :: i <= k < j ==> IsSpace(s[k])
    ensures j == |s| || !IsSpace(s[j])
    decreases |s| - i
  {
    if i < |s| && IsSpace(s[i]) then SpaceRun(s, i + 1) else i
  }

  /** A topic word: a capital and at least one more letter, ending on a word boundary. */
  predicate IsTopicText(t: string)
  {
    |t| >= 2 && 'A' <= t[0] <= 'Z' && forall k :: 0 <= k < |t| ==> IsLetter(t[k]) || IsSpace(t[k])
  }

  /** `[A-Z][a-zA-Z]+\b` at `p`: where the word ends, if it is one. */
  function WordAt(s: string, p: nat): (q: Option<nat>)
    requires p <= |s|
    ensures q.Some? ==> p + 2 <= q.value <= |s| && IsTopicText(s[p..q.value])
    ensures q.Some? ==> q.value == |s| || !IsWordChar(s[q.value])
  {
    if p < |s| && 'A' <= s[p] <= 'Z' then
      var q := LetterRun(s, p + 1);
      if q >= p + 2 && (q == |s| || !IsWordChar(s[q])) then Some(q) else None
    else None
  }

  /**
   * `\b[A-Z][a-zA-Z]+(?:\s+[A-Z][a-zA-Z]+)?\b` tried at `p`: a capitalised
   * word at a word start, extended by a second one after white space when
   * there is one.
   */
  function TopicAt(s: string, p: nat): (e: Option<nat>)
    requires p <= |s|
    ensures e.Some? ==> p + 2 <= e.value <= |s| && IsTopicText(s[p..e.value])
  {
    if p > 0 && p <= |s| && IsWordChar(s[p - 1]) then None
    else
      var first := WordAt(s, p);
      if first.None? then None
      else
        var q := first.value;
        var t := SpaceRun(s, q);
        var second := if t > q then WordAt(s, t) else None;
        if second.Some? then
          TwoWordTopic(s, p, q, t, second.value);
          second
        else first
  }

  /** A topic word, white space and a second topic word make one topic. */
  lemma TwoWordTopic(s: string, p: nat, q: nat, t: nat, e: nat)
    requires p <= q <= t <= e <= |s|
    requires IsTopicText(s[p..q]) && IsTopicText(s[t..e])
    requires forall k :: q <= k < t ==> IsSpace(s[k])
    ensures IsTopicText(s[p..e])
  {
    forall k | p <= k < e
      ensures IsLetter(s[k]) || IsSpace(s[k])
    {
      if k < q {
        assert s[k] == s[p..q][k - p];
      } else if k >= t {
        assert s[k] == s[t..e][k - t];
      }
    }
    assert s[p..e][0] == s[p..q][0];
  }

  /** `content.match(/.../g)` from position `p` on: each match, the search resuming after it. */
  function Topics(s: string, p: nat): (r: seq<string>)
    requires p <= |s|
    ensures forall k :: 0 <= k < |r| ==> IsTopicText(r[k])
    decreases |s| - p
  {
    if p == |s| then []
    else
      var e := TopicAt(s, p);
      if e.Some? then [s[p..e.value]] + Topics(s, e.value) else Topics(s, p + 1)
  }

  /** `extractKeyTopics`: up to eight distinct matches in order of first appearance, or the general topic when none. */
  function KeyTopics(content: Option<string>): (r: seq<string>)
    ensures content.None? || content.value == "" ==> r == []
    ensures |r| <= 8
    ensures forall i, j :: 0 <= i < j < |r| ==> r[i] != r[j]
    ensures content.Some? && content.value != "" ==>
              if Topics(content.value, 0) == [] then r == ["General Information"]
              else r != [] && forall k :: 0 <= k < |r| ==> r[k] in Topics(content.value, 0)
    ensures content.Some? && Topics(content.value, 0) != [] ==> FirstDistinct(Topics(content.value, 0), r, 8)
  {
    if content.None? || content.value == "" then []
    else
      var found := Unique(Topics(content.value, 0));
      PrefixOfUnique(Topics(content.value, 0), 8);
      var topics := Prefix(found, 8);
      if topics != [] then topics else ["General Information"]
  }

  /** Every topic found is a capitalised word or a pair of them. */
  lemma TopicsAreCapitalised(content: string, t: string)
    requires t in KeyTopics(Some(content)) && Topics(content, 0) != []
    ensures IsTopicText(t)
  {
    var r := KeyTopics(Some(content));
    var i :| 0 <= i < |r| && r[i] == t;
    var found := Topics(content, 0);
    assert t in found;
    var k :| 0 <= k < |found| && found[k] == t;
  }

  /** Two capitalised words in a row make one topic; a third starts the next. */
  lemma PairThenSingle()
    ensures Topics("Ab Cd Ef", 0) == ["Ab Cd", "Ef"]
  {
    var s := "Ab Cd Ef";
    PairAtStart(s);
    SingleAtEnd(s);
    assert Topics(s, 5) == Topics(s, 6) == [s[6..8]] + Topics(s, 8);
    assert Topics(s, 0) == [s[0..5]] + Topics(s, 5);
  }

  lemma PairAtStart(s: string)
    requires s == "Ab Cd Ef"
    ensures TopicAt(s, 0) == Some(5) && s[0..5] == "Ab Cd"
  {
    assert LetterRun(s, 1) == 2 && SpaceRun(s, 2) == 3 && LetterRun(s, 4) == 5;
    assert WordAt(s, 0) == Some(2) && WordAt(s, 3) == Some(5);
  }

  lemma SingleAtEnd(s: string)
    requires s == "Ab Cd Ef"
    ensures TopicAt(s, 5) == None && TopicAt(s, 6) == Some(8) && s[6..8] == "Ef"
  {
    assert LetterRun(s, 7) == 8 && SpaceRun(s, 8) == 8;
  }

  /** A capitalised word glued to a digit is no topic. */
  lemma DigitBreaksTopic()
    ensures Topics("Ab1", 0) == []
  {
    var s := "Ab1";
    assert LetterRun(s, 1) == 2;
    assert TopicAt(s, 0) == None;
    assert TopicAt(s, 1) == None;
    assert TopicAt(s, 2) == None;
  }

  // ---------------------------------------------------------------------
  // Services

  /** A listed service: trimmed, and longer than two characters. */
  predicate IsService(x: string)
  {
    |x| > 2 && !IsSpace(x[0]) && !IsSpace(x[|x| - 1])
  }

  /** The trimmed captures of one pattern's matches that are kept: present and longer than two characters once trimmed. */
  function Kept(captures: seq<Option<string>>): (r: seq<string>)
    ensures forall x :: x in r ==> IsService(x)
    ensures forall k :: 0 <= k < |captures| && captures[k].Some? && |Trim(captures[k].value)| > 2 ==>
      Trim(captures[k].value) in r
  {
    if captures == [] then []
    else
      var last := captures[|captures| - 1];
      var init := Kept(captures[..|captures| - 1]);
      assert forall k :: 0 <= k < |captures| - 1 ==> captures[k] == captures[..|captures| - 1][k];
      if last.Some? && |Trim(last.value)| > 2 then
        var t := Trim(last.value);
        assert IsService(t);
        assert forall x :: x in init + [t] <==> x in init || x == t;
        init + [t]
      else init
  }

  /** A capture is kept, trimmed, exactly when it is present and longer than two characters once trimmed. */
  function KeptOne(c: Option<string>): seq<string>
  {
    if c.Some? && |Trim(c.value)| > 2 then [Trim(c.value)] else []
  }

  lemma KeptUnfold(captures: seq<Option<string>>)
    requires captures != []
    ensures Kept(captures) == Kept(captures[..|captures| - 1]) + KeptOne(captures[|captures| - 1])
  {
  }

  /** The captures are kept in the order of the matches: the filter distributes over concatenation. */
  lemma {:induction false} KeptAppend(a: seq<Option<string>>, b: seq<Option<string>>)
    ensures Kept(a + b) == Kept(a) + Kept(b)
  {
    if b == [] {
      assert a + b == a;
    } else {
      var init, last := b[..|b| - 1], b[|b| - 1];
      assert (a + b)[..|a + b| - 1] == a + init && (a + b)[|a + b| - 1] == last;
      calc {
        Kept(a + b);
        { KeptUnfold(a + b); }
        Kept(a + init) + KeptOne(last);
        { KeptAppend(a, init); }
        (Kept(a) + Kept(init)) + KeptOne(last);
        { AppendAssoc(Kept(a), Kept(init), KeptOne(last)); }
        Kept(a) + (Kept(init) + KeptOne(last));
        { KeptUnfold(b); }
        Kept(a) + Kept(b);
      }
    }
  }

  /** The kept captures of every pattern, pattern by pattern. */
  function KeptAll(patterns: seq<seq<Option<string>>>): (r: seq<string>)
    ensures forall x :: x in r ==> IsService(x)
    ensures forall i, x :: 0 <= i < |patterns| && x in Kept(patterns[i]) ==> x in r
  {
    if patterns == [] then []
    else
      var init := patterns[..|patterns| - 1];
      var last := Kept(patterns[|patterns| - 1]);
      var r := KeptAll(init) + last;
      assert forall i :: 0 <= i < |init| ==> init[i] == patterns[i];
      assert forall x :: x in r <==> x in KeptAll(init) || x in last;
      r
  }

  /** The patterns' captures come pattern by pattern: the collection distributes over concatenation. */
  lemma {:induction false} KeptAllAppend(a: seq<seq<Option<string>>>, b: seq<seq<Option<string>>>)
    ensures KeptAll(a + b) == KeptAll(a) + KeptAll(b)
  {
    if b == [] {
      assert a + b == a;
    } else {
      var init, last := b[..|b| - 1], b[|b| - 1];
      assert (a + b)[..|a + b| - 1] == a + init && (a + b)[|a + b| - 1] == last;
      calc {
        KeptAll(a + b);
        KeptAll(a + init) + Kept(last);
        { KeptAllAppend(a, init); }
        (KeptAll(a) + KeptAll(init)) + Kept(last);
        { AppendAssoc(KeptAll(a), KeptAll(init), Kept(last)); }
        KeptAll(a) + (KeptAll(init) + Kept(last));
        KeptAll(a) + KeptAll(b);
      }
    }
  }

  /** The services listed: up to six distinct kept captures, in order of first appearance. */
  function Services(content: Option<string>, patterns: seq<seq<Option<string>>>): (r: seq<string>)
    ensures content.None? || content.value == "" ==> r == []
    ensures |r| <= 6
    ensures forall i, j :: 0 <= i < j < |r| ==> r[i] != r[j]
    ensures forall x :: x in r ==> IsService(x) && x in KeptAll(patterns)
    ensures content.Some? && content.value != "" ==> FirstDistinct(KeptAll(patterns), r, 6)
  {
    if content.None? || content.value == "" then []
    else
      var u := Unique(KeptAll(patterns));
      var r := Prefix(u, 6);
      PrefixOfUnique(KeptAll(patterns), 6);
      assert forall x :: x in r ==> x in u;
      r
  }

  /** A capture that is only white space and two letters is not listed. */
  lemma ShortCaptureDropped()
    ensures Kept([Some(" ab ")]) == []
  {
    assert Kept([Some(" ab ")]) == Kept([]) + (if |Trim(" ab ")| > 2 then [Trim(" ab ")] else []);
  }

  /**
   * `extractServices`; `patterns` holds, for each service pattern, the
   * capture `match[1]` of each of its matches (`None` when it did not take
   * part), as the regular expression produces them.
   */
  method ExtractServices(content: Option<string>, patterns: seq<seq<Option<string>>>) returns (services: seq<string>)
    ensures services == Services(content, patterns)
  {
    if content.None? || content.value == "" {
      return [];
    }
    var found: seq<string> := [];
    var i := 0;
    while i < |patterns|
      invariant 0 <= i <= |patterns|
      invariant found == KeptAll(patterns[..i])
    {
      found := PushKept(found, patterns[i]);
      assert patterns[..i + 1][..i] == patterns[..i];
      i := i + 1;
    }
    assert patterns[..i] == patterns;
    services := Prefix(Unique(found), 6);
  }

  /** The inner `for` over one pattern's matches: each kept capture is pushed, trimmed. */
  method PushKept(services: seq<string>, matches: seq<Option<string>>) returns (found: seq<string>)
    ensures found == services + Kept(matches)
  {
    found := services;
    var j := 0;
    while j < |matches|
      invariant 0 <= j <= |matches|
      invariant found == services + Kept(matches[..j])
    {
      var m := matches[j];
      var prefix := matches[..j + 1];
      assert prefix[..j] == matches[..j] && prefix[j] == m;
      if m.Some? && |Trim(m.value)| > 2 {
        var t := Trim(m.value);
        assert Kept(prefix) == Kept(matches[..j]) + [t];
        AppendAssoc(services, Kept(matches[..j]), [t]);
        found := found + [t];
      } else {
        assert Kept(prefix) == Kept(matches[..j]);
      }
      j := j + 1;
    }
    assert matches[..j] == matches;
  }

  // ---------------------------------------------------------------------
  // Category colour and the drawer

  const CategoryColors: map<string, string> :=
    map["Cloud" := "bg-blue-500", "Security" := "bg-green-500", "Backup" := "bg-purple-500",
        "Docs" := "bg-orange-500", "default" := "bg-gray-500"]

  /** `getCategoryColor`: the four known categories have their colour, anything else is grey. */
  function CategoryColor(category: Option<string>): (r: string)
    ensures category == Some("Cloud") ==> r == "bg-blue-500"
    ensures category == Some("Security") ==> r == "bg-green-500"
    ensures category == Some("Backup") ==> r == "bg-purple-500"
    ensures category == Some("Docs") ==> r == "bg-orange-500"
    ensures category.None? || category.value !in {"Cloud", "Security", "Backup", "Docs"} ==> r == "bg-gray-500"
  {
    if category.Some? && category.value in CategoryColors then CategoryColors[category.value]
    else CategoryColors["default"]
  }

  /** The entry the drawer shows, as far as the derived parts read it. */
  datatype DrawerEntry = DrawerEntry(contentFull: Option<string>, content: Option<string>, category: Option<string>)

  /** What the drawer derives from its entry. */
  datatype DrawerView = DrawerView(overview: string, keyTopics: seq<string>, services: seq<string>, color: string)

  /** The drawer renders nothing without an entry; otherwise every part reads the same text. */
  function Drawer(entry: Option<DrawerEntry>, patterns: seq<seq<Option<string>>>): (v: Option<DrawerView>)
    ensures v.None? <==> entry.None?
    ensures v.Some? ==>
              var text := ContentOf(entry.value.contentFull, entry.value.content);
              v.value.overview == Overview(text) && v.value.keyTopics == KeyTopics(text) &&
              v.value.services == Services(text, patterns) && v.value.color == CategoryColor(entry.value.category)
  {
    if entry.None? then None
    else
      var text := ContentOf(entry.value.contentFull, entry.value.content);
      Some(DrawerView(Overview(text), KeyTopics(text), Services(text, patterns), CategoryColor(entry.value.category)))
  }

  /** An entry without any text shows the placeholder overview and neither topics nor services. */
  lemma EmptyEntryPlaceholders(category: Option<string>, patterns: seq<seq<Option<string>>>)
    ensures var v := Drawer(Some(DrawerEntry(None, Some(""), category)), patterns);
            v.Some? && v.value.overview == NoContent && v.value.keyTopics == [] && v.value.services == []
  {
  }
}
