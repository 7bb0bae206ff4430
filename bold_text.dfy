/**
 * `renderFormattedText` (App.tsx): `text.split(/(\*\*.*?\*\*)/g)` followed by
 * a map that shows a part in bold, without its outer `**`, when it starts and
 * ends with `**`. The regular expression is replaced by the scan it performs:
 * the leftmost `**` from which a closing `**` can be reached without crossing
 * a line terminator (`.` does not match one), closed at the nearest such `**`.
 */
module BoldText {
  import opened Wrappers
  import Js

  /** The characters JavaScript's `.` does not match. */
  predicate IsLineTerminator(c: char) {
    c == '\n' || c == '\r' || c == '\U{2028}' || c == '\U{2029}'
  }

  predicate StarsAt(s: string, j: int) {
    0 <= j && j + 2 <= |s| && s[j] == '*' && s[j + 1] == '*'
  }

  /** A `**` at `k` can close a lazy `.*?` that started at `j`. */
  predicate ClosesAt(s: string, j: nat, k: nat) {
    j <= k && StarsAt(s, k) && forall m :: j <= m < k ==> !IsLineTerminator(s[m])
  }

  /** Where `.*?\*\*` started at `j` ends: the nearest `**` reachable from `j`. */
  function CloseFrom(s: string, j: nat): (r: Option<nat>)
    requires j <= |s|
    ensures r.Some? ==> j <= r.value && r.value + 2 <= |s|
    decreases |s| - j
  {
    if j + 2 > |s| then None
    else if StarsAt(s, j) then Some(j)
    else if IsLineTerminator(s[j]) then None
    else CloseFrom(s, j + 1)
  }

  /**
   * The close found is reachable and no `**` lies before it; when none is
   * found, no `**` is reachable at all.
   */
  lemma {:induction false} CloseFromNearest(s: string, j: nat)
    requires j <= |s|
    ensures CloseFrom(s, j).Some? ==> ClosesAt(s, j, CloseFrom(s, j).value)
    ensures CloseFrom(s, j).Some? ==> forall k :: j <= k < CloseFrom(s, j).value ==> !StarsAt(s, k)
    ensures CloseFrom(s, j).None? ==> forall k: nat :: !ClosesAt(s, j, k)
    decreases |s| - j
  {
    if j + 2 <= |s| && !StarsAt(s, j) && !IsLineTerminator(s[j]) {
      CloseFromNearest(s, j + 1);
      assert forall k: nat :: ClosesAt(s, j, k) ==> ClosesAt(s, j + 1, k);
    }
  }

  /** The pattern matches at `i`. */
  predicate MatchAt(s: string, i: nat) {
    StarsAt(s, i) && CloseFrom(s, i + 2).Some?
  }

  /** The leftmost match at or after `from`: its start and the index of its closing `**`. */
  function FindMatch(s: string, from: nat): (r: Option<(nat, nat)>)
    requires from <= |s|
    ensures r.Some? ==> from <= r.value.0 && r.value.0 + 2 <= r.value.1 && r.value.1 + 2 <= |s|
    decreases |s| - from
  {
    if from + 2 > |s| then None
    else if MatchAt(s, from) then Some((from, CloseFrom(s, from + 2).value))
    else FindMatch(s, from + 1)
  }

  /**
   * The match found is a match, closed where `CloseFrom` says, and none starts
   * before it; when none is found, there is no match from `from` on.
   */
  lemma {:induction false} FindMatchLeftmost(s: string, from: nat)
    requires from <= |s|
    ensures FindMatch(s, from).Some? ==>
      MatchAt(s, FindMatch(s, from).value.0) && CloseFrom(s, FindMatch(s, from).value.0 + 2) == Some(FindMatch(s, from).value.1)
    ensures FindMatch(s, from).Some? ==> forall i :: from <= i < FindMatch(s, from).value.0 ==> !MatchAt(s, i)
    ensures FindMatch(s, from).None? ==> forall i: nat :: from <= i ==> !MatchAt(s, i)
    decreases |s| - from
  {
    if from + 2 <= |s| && !MatchAt(s, from) {
      FindMatchLeftmost(s, from + 1);
    }
  }

  /** The parts `split` yields from index `i` on: text between matches, each match, text between, ... */
  function SplitFrom(s: string, i: nat): (parts: seq<string>)
    requires i <= |s|
    ensures |parts| % 2 == 1
    decreases |s| - i
  {
    var m := FindMatch(s, i);
    if m.None? then [s[i..]]
    else
      var a, c := m.value.0, m.value.1;
      [s[i..a], s[a..c + 2]] + SplitFrom(s, c + 2)
  }

  /** `text.split(/(\*\*.*?\*\*)/g)`: an odd number of parts, so at least one, even for the empty text. */
  function Split(text: string): (parts: seq<string>)
    ensures |parts| % 2 == 1
  {
    SplitFrom(text, 0)
  }

  /**
   * A span the pattern matches on its own: `**`, then text with no line
   * terminator and no `**` before the final one, then `**`.
   */
  predicate IsBoldSpan(p: string) {
    && |p| >= 4
    && StarsAt(p, 0)
    && StarsAt(p, |p| - 2)
    && (forall m :: 2 <= m < |p| - 2 ==> !IsLineTerminator(p[m]))
    && (forall m :: 2 <= m < |p| - 2 ==> !StarsAt(p, m))
  }

  /** The text contains no match at all. */
  predicate SpanFree(t: string) {
    forall i: nat | i <= |t| :: !MatchAt(t, i)
  }

  // ---------------------------------------------------------------------------
  // What split yields
  // ---------------------------------------------------------------------------

  /** One step of the join: the text before a match, the match, and the joined rest. */
  lemma JoinStep(s: string, i: nat, a: nat, c: nat, rest: seq<string>)
    requires i <= a <= c && c + 2 <= |s|
    requires Js.Concat(rest) == s[c + 2..]
    ensures Js.Concat([s[i..a], s[a..c + 2]] + rest) == s[i..]
  {
    var pair := [s[i..a], s[a..c + 2]];
    Js.ConcatAppend(pair, rest);
    assert Js.Concat(pair) == s[i..a] + s[a..c + 2] by {
      assert pair[1..] == [s[a..c + 2]] && pair[1..][1..] == [];
      assert Js.Concat([s[a..c + 2]]) == s[a..c + 2] + Js.Concat([]);
    }
    assert s[a..] == s[a..c + 2] + s[c + 2..];
    assert s[i..] == s[i..a] + s[a..];
  }

  /**
   * How the split from `i` unfolds: either the rest of the text is the last
   * part, or the text up to the leftmost match and the match come first,
   * followed by the split from the match's end.
   */
  lemma SplitFromCase(s: string, i: nat) returns (last: bool, a: nat, c: nat)
    requires i <= |s|
    ensures last ==> SplitFrom(s, i) == [s[i..]]
    ensures !last ==> i <= a && a + 2 <= c && c + 2 <= |s|
    ensures !last ==> SplitFrom(s, i) == [s[i..a], s[a..c + 2]] + SplitFrom(s, c + 2)
  {
    var m := FindMatch(s, i);
    last, a, c := m.None?, 0, 0;
    if !last {
      a, c := m.value.0, m.value.1;
    }
  }

  /** Joining the parts gives back the text. */
  lemma {:induction false} SplitFromJoins(s: string, i: nat)
    requires i <= |s|
    ensures Js.Concat(SplitFrom(s, i)) == s[i..]
    decreases |s| - i
  {
    var last, a, c := SplitFromCase(s, i);
    if last {
      assert Js.Concat([s[i..]]) == s[i..] + Js.Concat([]);
    } else {
      SplitFromJoins(s, c + 2);
      JoinStep(s, i, a, c, SplitFrom(s, c + 2));
    }
  }

  lemma SplitJoins(text: string)
    ensures Js.Concat(Split(text)) == text
  {
    SplitFromJoins(text, 0);
  }

  /** A match found by the scan, taken out of its text, is a bold span. */
  lemma MatchIsBoldSpan(s: string, a: nat, c: nat)
    requires MatchAt(s, a) && CloseFrom(s, a + 2) == Some(c)
    ensures IsBoldSpan(s[a..c + 2])
  {
    CloseFromNearest(s, a + 2);
    var p := s[a..c + 2];
    assert |p| == c + 2 - a;
    forall m | 2 <= m < |p| - 2 ensures !IsLineTerminator(p[m]) && !StarsAt(p, m) {
      assert p[m] == s[a + m];
      assert !StarsAt(s, a + m);
    }
  }

  /** A match inside a slice of a text is a match of the text at the shifted index. */
  lemma LiftMatch(s: string, i: nat, a: nat, x: nat)
    requires i <= a <= |s|
    requires MatchAt(s[i..a], x)
    ensures MatchAt(s, i + x)
  {
    var t := s[i..a];
    CloseFromNearest(t, x + 2);
    CloseFromNearest(s, i + x + 2);
    var y := CloseFrom(t, x + 2).value;
    assert ClosesAt(t, x + 2, y);
    assert StarsAt(s, i + x) by { assert s[i + x] == t[x] && s[i + x + 1] == t[x + 1]; }
    assert ClosesAt(s, i + x + 2, i + y) by {
      assert s[i + y] == t[y] && s[i + y + 1] == t[y + 1];
      forall m | i + x + 2 <= m < i + y ensures !IsLineTerminator(s[m]) {
        assert s[m] == t[m - i];
      }
    }
  }

  /** Text that the scan passed over without finding a match holds no match on its own either. */
  lemma NoMatchBefore(s: string, i: nat, a: nat)
    requires i <= a <= |s|
    requires forall x :: i <= x < a ==> !MatchAt(s, x)
    ensures SpanFree(s[i..a])
  {
    var t := s[i..a];
    forall x: nat | x <= |t| ensures !MatchAt(t, x) {
      if MatchAt(t, x) {
        LiftMatch(s, i, a, x);
        assert false;
      }
    }
  }

  /**
   * The parts alternate: even positions hold text in which the pattern does
   * not match, odd positions hold the bold spans it matched.
   */
  lemma {:induction false} SplitFromAlternates(s: string, i: nat)
    requires i <= |s|
    ensures forall k :: 0 <= k < |SplitFrom(s, i)| && k % 2 == 0 ==> SpanFree(SplitFrom(s, i)[k])
    ensures forall k :: 0 <= k < |SplitFrom(s, i)| && k % 2 == 1 ==> IsBoldSpan(SplitFrom(s, i)[k])
    decreases |s| - i
  {
    var parts := SplitFrom(s, i);
    var m := FindMatch(s, i);
    FindMatchLeftmost(s, i);
    if m.None? {
      NoMatchBefore(s, i, |s|);
      assert s[i..|s|] == s[i..];
      assert parts == [s[i..]];
    } else {
      var a, c := m.value.0, m.value.1;
      NoMatchBefore(s, i, a);
      MatchIsBoldSpan(s, a, c);
      SplitFromAlternates(s, c + 2);
      var rest := SplitFrom(s, c + 2);
      assert parts == [s[i..a], s[a..c + 2]] + rest;
      forall k | 2 <= k < |parts|
        ensures parts[k] == rest[k - 2]
      {
      }
    }
  }

  lemma SplitAlternates(text: string)
    ensures |Split(text)| % 2 == 1
    ensures forall k :: 0 <= k < |Split(text)| && k % 2 == 0 ==> SpanFree(Split(text)[k])
    ensures forall k :: 0 <= k < |Split(text)| && k % 2 == 1 ==> IsBoldSpan(Split(text)[k])
  {
    SplitFromAlternates(text, 0);
  }

  // ---------------------------------------------------------------------------
  // Rendering
  // ---------------------------------------------------------------------------

  /** A rendered part: a plain string or a `<strong>` element with its text. */
  datatype Piece = Plain(text: string) | Bold(text: string)

  /**
   * The map callback: a part is shown bold exactly when it starts and ends
   * with `**`, and its bold text, `slice(2, -2)`, is what lies between them,
   * or nothing when the two overlap or touch; any other part is kept as it is.
   */
  function RenderPart(p: string): (r: Piece)
    ensures r.Bold? <==> Js.StartsWith(p, "**") && Js.EndsWith(p, "**")
    ensures r.Bold? && |p| >= 4 ==> p == "**" + r.text + "**"
    ensures r.Bold? && |p| < 4 ==> r.text == ""
    ensures r.Plain? ==> r.text == p
  {
    if Js.StartsWith(p, "**") && Js.EndsWith(p, "**") then
      assert |p| >= 4 ==> p == p[..2] + p[2..|p| - 2] + p[|p| - 2..];
      Bold(Js.Slice(p, 2, -2))
    else Plain(p)
  }

  /**
   * `renderFormattedText`: `null` for the empty text, otherwise part k of the
   * split rendered as piece k; there is an odd number of pieces, and every
   * captured match (an odd-numbered part) is shown bold.
   */
  function RenderFormattedText(text: string): (r: Option<seq<Piece>>)
    ensures r.None? <==> text == ""
    ensures r.Some? ==> |r.value| == |Split(text)| && |r.value| % 2 == 1
    ensures r.Some? ==> forall k :: 0 <= k < |r.value| ==> r.value[k] == RenderPart(Split(text)[k])
    ensures r.Some? ==> forall k :: 0 <= k < |r.value| && k % 2 == 1 ==> r.value[k].Bold?
  {
    if text == "" then None
    else
      var parts := Split(text);
      SplitAlternates(text);
      Some(seq(|parts|, k requires 0 <= k < |parts| => RenderPart(parts[k])))
  }

  /** What a piece looks like written back as markdown. */
  function Markdown(p: Piece): string {
    match p
    case Plain(t) => t
    case Bold(t) => "**" + t + "**"
  }

  function MarkdownOf(pieces: seq<Piece>): string
    decreases |pieces|
  {
    if pieces == [] then "" else Markdown(pieces[0]) + MarkdownOf(pieces[1..])
  }

  lemma {:induction false} MarkdownOfParts(parts: seq<string>)
    requires forall k :: 0 <= k < |parts| ==> parts[k] != "**" && parts[k] != "***"
    ensures MarkdownOf(seq(|parts|, k requires 0 <= k < |parts| => RenderPart(parts[k]))) == Js.Concat(parts)
    decreases |parts|
  {
    if parts != [] {
      var pieces := seq(|parts|, k requires 0 <= k < |parts| => RenderPart(parts[k]));
      var tail := parts[1..];
      MarkdownOfParts(tail);
      assert pieces[1..] == seq(|tail|, k requires 0 <= k < |tail| => RenderPart(tail[k]));
      var p := parts[0];
      assert pieces[0] == RenderPart(p);
      assert Markdown(pieces[0]) == p;
    }
  }

  /**
   * Writing the rendered pieces back as markdown gives the text again, unless
   * some part is a lone `**` or `***`, which renders as an empty bold element.
   */
  lemma RenderRoundTrip(text: string)
    requires text != ""
    requires forall k :: 0 <= k < |Split(text)| ==> Split(text)[k] != "**" && Split(text)[k] != "***"
    ensures MarkdownOf(RenderFormattedText(text).value) == text
  {
    MarkdownOfParts(Split(text));
    SplitJoins(text);
  }

  /** Three asterisks are one part that renders as an empty bold element: the round trip loses them. */
  lemma ThreeStarsVanish()
    ensures RenderFormattedText("***") == Some([Bold("")])
  {
    var s := "***";
    assert CloseFrom(s, 2) == None;
    assert CloseFrom(s, 3) == None;
    assert FindMatch(s, 2) == None;
    assert FindMatch(s, 1) == None;
    assert FindMatch(s, 0) == None;
    assert Split(s) == [s];
    assert Js.StartsWith(s, "**") && Js.EndsWith(s, "**");
    assert Js.Slice(s, 2, -2) == "";
    assert RenderPart(s) == Bold("");
    var pieces := seq(1, k requires 0 <= k < 1 => RenderPart([s][k]));
    assert pieces == [Bold("")];
  }
}
