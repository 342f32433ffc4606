/**
 * Failure attribution in the editor: the pattern /vertex (\w+) failed: (.+)/
 * applied with String.prototype.match to the text of a failed execute
 * response (frontend/src/components/WorkflowEditor.tsx, handleExport).
 *
 * A match starts at the leftmost position where the pattern succeeds. At a
 * given start the pattern is deterministic: `\w+` must be followed by a
 * space, so only the maximal run of word characters can succeed, and the
 * greedy `.+` takes the maximal run of characters up to a line terminator.
 */
module FailureAttribution {
  import opened Wrappers

  /** The class `\w`: ASCII letters, digits and underscore. */
  predicate IsWordChar(c: char) {
    'A' <= c <= 'Z' || 'a' <= c <= 'z' || '0' <= c <= '9' || c == '_'
  }

  /** The characters `.` does not match without the `s` flag. */
  predicate IsLineTerminator(c: char) {
    c == '\n' || c == '\r' || c == '\U{2028}' || c == '\U{2029}'
  }

  const Marker: string := "vertex "
  const Separator: string := " failed: "

  datatype Attribution = Attribution(nodeId: string, reason: string)

  /** End of the maximal run of word characters starting at `i`. */
  function WordEnd(s: string, i: nat): (k: nat)
    requires i <= |s|
    ensures i <= k <= |s|
    ensures forall j :: i <= j < k ==> IsWordChar(s[j])
    ensures k == |s| || !IsWordChar(s[k])
    decreases |s| - i
  {
    if i < |s| && IsWordChar(s[i]) then WordEnd(s, i + 1) else i
  }

  /** End of the maximal run of non-terminator characters starting at `i`. */
  function LineEnd(s: string, i: nat): (k: nat)
    requires i <= |s|
    ensures i <= k <= |s|
    ensures forall j :: i <= j < k ==> !IsLineTerminator(s[j])
    ensures k == |s| || IsLineTerminator(s[k])
    decreases |s| - i
  {
    if i < |s| && !IsLineTerminator(s[i]) then LineEnd(s, i + 1) else i
  }

  /** A window that spells the marker at `i` and the separator at `k` splits into the four parts. */
  lemma SpellingParts(s: string, i: nat, k: nat, e: nat)
    requires i + 7 <= k && k + 9 <= e <= |s|
    requires s[i..i + 7] == Marker && s[k..k + 9] == Separator
    ensures s[i..e] == Marker + s[i + 7..k] + Separator + s[k + 9..e]
  {
    assert s[i..e] == s[i..k] + s[k..e];
    assert s[i..k] == s[i..i + 7] + s[i + 7..k];
    assert s[k..e] == s[k..k + 9] + s[k + 9..e];
  }

  /** The match of the pattern that starts exactly at index `i`, if any. */
  function MatchAt(s: string, i: nat): (r: Option<Attribution>)
    requires i <= |s|
    ensures r.Some? ==>
      var m := Marker + r.value.nodeId + Separator + r.value.reason;
      && |r.value.nodeId| > 0
      && (forall j :: 0 <= j < |r.value.nodeId| ==> IsWordChar(r.value.nodeId[j]))
      && |r.value.reason| > 0
      && (forall j :: 0 <= j < |r.value.reason| ==> !IsLineTerminator(r.value.reason[j]))
      && i + |m| <= |s| && s[i..i + |m|] == m
      && (i + |m| == |s| || IsLineTerminator(s[i + |m|]))
  {
    if i + 7 <= |s| && s[i..i + 7] == Marker then
      var k := WordEnd(s, i + 7);
      if k > i + 7 && k + 9 <= |s| && s[k..k + 9] == Separator then
        var e := LineEnd(s, k + 9);
        if e > k + 9 then
          SpellingParts(s, i, k, e);
          Some(Attribution(s[i + 7..k], s[k + 9..e]))
        else None
      else None
    else None
  }

  /** Index of the leftmost match at or after `i`, or |s| + 1 when no position there matches. */
  function FirstMatchIndex(s: string, i: nat): (j: nat)
    requires i <= |s|
    ensures i <= j <= |s| + 1
    ensures j <= |s| ==> MatchAt(s, j).Some?
    ensures forall l :: i <= l < j && l <= |s| ==> MatchAt(s, l).None?
    decreases |s| - i
  {
    if MatchAt(s, i).Some? then i
    else if i == |s| then |s| + 1
    else FirstMatchIndex(s, i + 1)
  }

  /** The leftmost match at or after index `i`. */
  function FirstMatchFrom(s: string, i: nat): (r: Option<Attribution>)
    requires i <= |s|
    ensures r.Some? ==>
      exists j :: i <= j <= |s| && MatchAt(s, j) == r && forall l :: i <= l < j ==> MatchAt(s, l).None?
    ensures r.None? ==> forall j :: i <= j <= |s| ==> MatchAt(s, j).None?
  {
    var j := FirstMatchIndex(s, i);
    if j <= |s| then MatchAt(s, j) else None
  }

  /** `text.match(/vertex (\w+) failed: (.+)/)`, reduced to its two groups. */
  function Attribute(text: string): (r: Option<Attribution>)
    ensures r.Some? ==>
      exists i :: 0 <= i <= |text| && MatchAt(text, i) == r && forall l :: 0 <= l < i ==> MatchAt(text, l).None?
    ensures r.None? ==> forall i :: 0 <= i <= |text| ==> MatchAt(text, i).None?
  {
    FirstMatchFrom(text, 0)
  }

  /** A text attributes to a vertex exactly when the pattern matches somewhere in it. */
  lemma AttributedIffSomeMatch(text: string)
    ensures Attribute(text).Some? <==> exists i :: 0 <= i <= |text| && MatchAt(text, i).Some?
  {
  }

  /**
   * The shortest text that can match is "vertex x failed: y" (18 characters),
   * so a shorter diagnostic, such as "internal error", is never attributed.
   */
  lemma ShortTextNotAttributed(text: string)
    requires |text| < |Marker| + 1 + |Separator| + 1
    ensures Attribute(text) == None
  {
    forall i | 0 <= i <= |text| ensures MatchAt(text, i).None? {
    }
  }

  lemma InternalErrorNotAttributed()
    ensures Attribute("internal error") == None
  {
    ShortTextNotAttributed("internal error");
  }

  /** The worked example: "vertex 7 failed: model timeout". */
  lemma TimeoutExample()
    ensures Attribute("vertex 7 failed: model timeout") == Some(Attribution("7", "model timeout"))
  {
    var s := "vertex 7 failed: model timeout";
    assert s == Marker + "7" + Separator + "model timeout" + "";
    SingleMatch(s, "7", "model timeout", "");
  }

  /**
   * The reason keeps further colons and later "vertex" phrases, and the
   * leftmost occurrence wins.
   */
  lemma LeftmostWinsExample()
    ensures Attribute(Marker + "a" + Separator + "x: " + Marker + "b" + Separator + "y")
         == Some(Attribution("a", "x: " + Marker + "b" + Separator + "y"))
  {
    var reason := "x: " + Marker + "b" + Separator + "y";
    var s := Marker + "a" + Separator + "x: " + Marker + "b" + Separator + "y";
    assert s == Marker + "a" + Separator + reason + "";
    assert reason == "x: vertex b failed: y";
    SingleMatch(s, "a", reason, "");
  }

  /**
   * Completeness of MatchAt: wherever the text spells `vertex <id> failed:
   * <reason>` with a word id and a one-line reason that runs to the end of
   * the text or to a line terminator, the match at that position has exactly
   * that id and reason.
   */
  lemma MatchAtComplete(s: string, i: nat, id: string, reason: string)
    requires |id| > 0 && forall j :: 0 <= j < |id| ==> IsWordChar(id[j])
    requires |reason| > 0 && forall j :: 0 <= j < |reason| ==> !IsLineTerminator(reason[j])
    requires i + |Marker + id + Separator + reason| <= |s|
    requires s[i..i + |Marker + id + Separator + reason|] == Marker + id + Separator + reason
    requires i + |Marker + id + Separator + reason| == |s| || IsLineTerminator(s[i + |Marker + id + Separator + reason|])
    ensures MatchAt(s, i) == Some(Attribution(id, reason))
  {
    var k := i + 7 + |id|;
    var e := k + 9 + |reason|;
    SpelledParts(s, i, id, reason);
    assert s[k] == s[k..k + 9][0] == ' ';
    IdRunEnds(s, id, i + 7, k);
    ReasonRunEnds(s, reason, k + 9, e);
    MatchAtFromParts(s, i, k, e);
  }

  /** A window spelling `vertex <id> failed: <reason>` reads back part by part. */
  lemma SpelledParts(s: string, i: nat, id: string, reason: string)
    requires i + |Marker + id + Separator + reason| <= |s|
    requires s[i..i + |Marker + id + Separator + reason|] == Marker + id + Separator + reason
    ensures var k := i + 7 + |id|;
      && s[i..i + 7] == Marker && s[i + 7..k] == id
      && s[k..k + 9] == Separator && s[k + 9..k + 9 + |reason|] == reason
  {
    var m := Marker + id + Separator + reason;
    FourParts(Marker, id, Separator, reason);
    SliceOfWindow(s, i, m, 0, 7);
    SliceOfWindow(s, i, m, 7, 7 + |id|);
    SliceOfWindow(s, i, m, 7 + |id|, 16 + |id|);
    SliceOfWindow(s, i, m, 16 + |id|, |m|);
  }

  /** MatchAt succeeds once the marker, a word run, the separator and a line run line up. */
  lemma MatchAtFromParts(s: string, i: nat, k: nat, e: nat)
    requires i + 7 <= |s| && s[i..i + 7] == Marker
    requires WordEnd(s, i + 7) == k > i + 7 && k + 9 <= |s| && s[k..k + 9] == Separator
    requires LineEnd(s, k + 9) == e > k + 9
    ensures MatchAt(s, i) == Some(Attribution(s[i + 7..k], s[k + 9..e]))
  {
  }

  /** A slice of a window that spells `w` is the same slice of `w`. */
  lemma SliceOfWindow(s: string, i: nat, w: string, lo: nat, hi: nat)
    requires i + |w| <= |s| && s[i..i + |w|] == w && lo <= hi <= |w|
    ensures s[i + lo..i + hi] == w[lo..hi]
  {
    forall j | 0 <= j < hi - lo ensures s[i + lo..i + hi][j] == w[lo..hi][j] {
      assert s[i + lo + j] == s[i..i + |w|][lo + j];
    }
  }

  /** The four parts of a concatenation, read back by position. */
  lemma FourParts(a: string, b: string, c: string, d: string)
    ensures var m := a + b + c + d;
      && m[..|a|] == a
      && m[|a|..|a| + |b|] == b
      && m[|a| + |b|..|a| + |b| + |c|] == c
      && m[|a| + |b| + |c|..] == d
  {
    var m := a + b + c + d;
    assert m == ((a + b) + c) + d;
    assert m[..|a| + |b| + |c|] == (a + b) + c;
    assert m[..|a| + |b|] == a + b;
  }

  /**
   * The leftmost spelling wins: a text that spells `vertex <id> failed:
   * <reason>` at position `i`, and matches nowhere before it, is attributed
   * to that id and reason.
   */
  lemma AttributeFirstSpelling(s: string, i: nat, id: string, reason: string)
    requires |id| > 0 && forall j :: 0 <= j < |id| ==> IsWordChar(id[j])
    requires |reason| > 0 && forall j :: 0 <= j < |reason| ==> !IsLineTerminator(reason[j])
    requires i + |Marker + id + Separator + reason| <= |s|
    requires s[i..i + |Marker + id + Separator + reason|] == Marker + id + Separator + reason
    requires i + |Marker + id + Separator + reason| == |s| || IsLineTerminator(s[i + |Marker + id + Separator + reason|])
    requires forall l :: 0 <= l < i ==> MatchAt(s, l).None?
    ensures Attribute(s) == Some(Attribution(id, reason))
  {
    MatchAtComplete(s, i, id, reason);
    var j := FirstMatchIndex(s, 0);
    assert j <= i;
    assert j == i;
  }

  /**
   * A text spelling `vertex <id> failed: <reason>` from its first character,
   * followed by the end of the text or a line break, is attributed to that id
   * and reason.
   */
  lemma SingleMatch(s: string, id: string, reason: string, tail: string)
    requires s == Marker + id + Separator + reason + tail
    requires |id| > 0 && forall j :: 0 <= j < |id| ==> IsWordChar(id[j])
    requires |reason| > 0 && forall j :: 0 <= j < |reason| ==> !IsLineTerminator(reason[j])
    requires |tail| == 0 || IsLineTerminator(tail[0])
    ensures Attribute(s) == Some(Attribution(id, reason))
  {
    var m := Marker + id + Separator + reason;
    assert s[0..|m|] == m;
    assert |m| < |s| ==> s[|m|] == tail[0];
    AttributeFirstSpelling(s, 0, id, reason);
  }

  /** The word run after the marker ends right before the separator's space. */
  lemma IdRunEnds(s: string, id: string, a: nat, k: nat)
    requires k == a + |id| < |s| && s[a..k] == id && s[k] == ' '
    requires forall j :: 0 <= j < |id| ==> IsWordChar(id[j])
    ensures WordEnd(s, a) == k
  {
    forall j | a <= j < k ensures IsWordChar(s[j]) {
      assert s[j] == id[j - a];
    }
  }

  /** The line run after the separator ends where the reason does. */
  lemma ReasonRunEnds(s: string, reason: string, b: nat, e: nat)
    requires b + |reason| == e <= |s| && s[b..e] == reason
    requires forall j :: 0 <= j < |reason| ==> !IsLineTerminator(reason[j])
    requires e == |s| || IsLineTerminator(s[e])
    ensures LineEnd(s, b) == e
  {
    forall j | b <= j < e ensures !IsLineTerminator(s[j]) {
      assert s[j] == reason[j - b];
    }
  }

  /** The reason stops at a line break: only the first line after the separator is kept. */
  lemma ReasonStopsAtLineBreakExample()
    ensures Attribute("vertex n1 failed: boom\nstack") == Some(Attribution("n1", "boom"))
  {
    var s := "vertex n1 failed: boom\nstack";
    assert s == Marker + "n1" + Separator + "boom" + "\nstack";
    SingleMatch(s, "n1", "boom", "\nstack");
  }

  // ---- Tools for showing that a text is never attributed ----

  /** A window can only spell `Marker` where the text has a 'v'. */
  lemma NoMarkerWithoutV(s: string, i: nat)
    requires i < |s| && s[i] != 'v'
    ensures !(i + 7 <= |s| && s[i..i + 7] == Marker)
  {
    if i + 7 <= |s| {
      assert s[i..i + 7][0] == s[i] != Marker[0];
    }
  }

  /**
   * A window starting inside a space-free stretch s[lo..hi] cannot spell
   * `Marker` when the character right after the stretch is not one of the
   * letters "ertex " that would have to continue it.
   */
  lemma NoMarkerInSpaceFreeStretch(s: string, lo: nat, hi: nat, i: nat)
    requires lo <= i < hi < |s|
    requires forall j :: lo <= j < hi ==> s[j] != ' '
    requires s[hi] !in "ertex "
    ensures !(i + 7 <= |s| && s[i..i + 7] == Marker)
  {
    if i + 7 <= |s| {
      if i + 6 < hi {
        assert s[i..i + 7][6] == s[i + 6] != ' ';
      } else {
        var d := hi - i;
        assert s[i..i + 7][d] == s[hi];
        assert s[hi] != Marker[d];
      }
    }
  }

  /** No match can start where `Marker` is not spelt. */
  lemma NoMatchWithoutMarker(s: string, i: nat)
    requires i <= |s|
    requires !(i + 7 <= |s| && s[i..i + 7] == Marker)
    ensures MatchAt(s, i).None?
  {
  }
}
