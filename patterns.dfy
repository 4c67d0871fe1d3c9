/**
 * The regular expressions of the extractors all have one shape,
 *
 *     /(?:lead_1|lead_2|...|lead_n)\s+(.+?)(?:\.|$)/i
 *
 * and are only ever used through `String.prototype.match` without the global
 * flag, which yields the first match and its capture group 1. This module is
 * that search, written out with the backtracking order of ECMAScript
 * regular expressions: start positions from left to right; at one position
 * the alternatives in the order written; the greedy `\s+` first takes the
 * whole run of white space and gives it back one character at a time; the
 * lazy `(.+?)` takes one character, then two, and so on, never a line
 * terminator, until a `.` or the end of the input follows.
 *
 * Case-insensitive matching against the (all ASCII, lower-case) lead-ins is
 * ASCII folding: in a non-Unicode pattern `/i` never maps a non-ASCII
 * character onto an ASCII one.
 */
module Patterns {
  import opened Wrappers
  import opened Text

  /** The half-open extent `[start, end)` of capture group 1. */
  datatype Span = Span(start: nat, end: nat)

  /** `lead` occurs at `p`, compared case-insensitively. */
  predicate LeadAt(s: string, p: nat, lead: string) {
    p + |lead| <= |s| && forall k :: 0 <= k < |lead| ==> LowerChar(s[p + k]) == lead[k]
  }

  /** Alternative `i` occurs at `p` and is followed by at least one white-space character. */
  predicate LeadThenSpace(s: string, leads: seq<string>, p: nat, i: nat) {
    i < |leads| && LeadAt(s, p, leads[i]) && p + |leads[i]| < |s| && IsSpace(s[p + |leads[i]|])
  }

  /** Some alternative, somewhere in `s`, is followed by white space. */
  ghost predicate Announced(s: string, leads: seq<string>) {
    exists p: nat, i: nat :: LeadThenSpace(s, leads, p, i)
  }

  /** Length of the run of white space that starts at `q`. */
  function SpaceRun(s: string, q: nat): (w: nat)
    requires q <= |s|
    ensures q + w <= |s|
    decreases |s| - q
  {
    if q < |s| && IsSpace(s[q]) then 1 + SpaceRun(s, q + 1) else 0
  }

  /** `SpaceRun` measures a maximal run: all white space, and no white space right after it. */
  lemma {:induction false} SpaceRunIsRun(s: string, q: nat)
    requires q <= |s|
    ensures forall k :: q <= k < q + SpaceRun(s, q) ==> IsSpace(s[k])
    ensures q + SpaceRun(s, q) == |s| || !IsSpace(s[q + SpaceRun(s, q)])
    decreases |s| - q
  {
    if q < |s| && IsSpace(s[q]) {
      SpaceRunIsRun(s, q + 1);
    }
  }

  /**
   * The lazy `(.+?)` followed by `(?:\.|$)`, the group having consumed
   * `s[j..k-1]` already: consume `s[k-1]` (not a line terminator), then stop
   * at the first `k` that is followed by a `.` or is the end of the input.
   */
  function LazyEnd(s: string, k: nat): Option<nat>
    requires 1 <= k
    decreases |s| + 1 - k
  {
    if k > |s| then None
    else if IsLineTerminator(s[k - 1]) then None
    else if k == |s| || s[k] == '.' then Some(k)
    else LazyEnd(s, k + 1)
  }

  /**
   * Where the lazy group stops, it has crossed no line terminator and no
   * `.`, and it stands before a `.` or at the end.
   */
  lemma {:induction false} LazyEndSpec(s: string, k: nat)
    requires 1 <= k
    ensures var r := LazyEnd(s, k);
      && (r.Some? ==> k <= r.value <= |s| && (r.value == |s| || s[r.value] == '.'))
      && (r.Some? ==> forall m :: k - 1 <= m < r.value ==> !IsLineTerminator(s[m]))
      && (r.Some? ==> forall m :: k <= m < r.value ==> s[m] != '.')
    decreases |s| + 1 - k
  {
    if k <= |s| && !IsLineTerminator(s[k - 1]) && k < |s| && s[k] != '.' {
      LazyEndSpec(s, k + 1);
    }
  }

  /**
   * What `(.+?)(?:\.|$)` leaves as group 1: at least one character and no
   * line terminator, followed by a `.` or the end, with no `.` after its
   * first character.
   */
  predicate Lazy(s: string, sp: Span) {
    && sp.start < sp.end <= |s|
    && (sp.end == |s| || s[sp.end] == '.')
    && (forall m :: sp.start <= m < sp.end ==> !IsLineTerminator(s[m]))
    && (forall m :: sp.start < m < sp.end ==> s[m] != '.')
  }

  /**
   * The greedy `\s+` after a lead-in that ends at `q`: the group starts after
   * `w` white-space characters, then after `w - 1`, ..., then after one.
   */
  function Backtrack(s: string, q: nat, w: nat): Option<Span>
    decreases w
  {
    if w == 0 then None
    else match LazyEnd(s, q + w + 1)
      case Some(k) => Some(Span(q + w, k))
      case None => Backtrack(s, q, w - 1)
  }

  /** Whatever the backtracking gives back starts inside the white-space run and is a lazy group. */
  lemma {:induction false} BacktrackSpec(s: string, q: nat, w: nat)
    ensures var r := Backtrack(s, q, w);
      r.Some? ==> q < r.value.start <= q + w && Lazy(s, r.value)
    decreases w
  {
    if w > 0 {
      LazyEndSpec(s, q + w + 1);
      if LazyEnd(s, q + w + 1).None? {
        BacktrackSpec(s, q, w - 1);
      }
    }
  }

  /** What the whole pattern does once alternative `i` has matched at `p`. */
  function AfterLead(s: string, leads: seq<string>, p: nat, i: nat): Option<Span>
    requires i < |leads| && p + |leads[i]| <= |s|
  {
    var q := p + |leads[i]|;
    Backtrack(s, q, SpaceRun(s, q))
  }

  /** The whole pattern matches at `p` by way of alternative `i`. */
  predicate Fires(s: string, leads: seq<string>, p: nat, i: nat) {
    i < |leads| && LeadAt(s, p, leads[i]) && AfterLead(s, leads, p, i).Some?
  }

  /** A match group lies after the lead-in and its white space, and is a lazy group. */
  lemma FiresGroup(s: string, leads: seq<string>, p: nat, i: nat)
    requires Fires(s, leads, p, i)
    ensures var sp := AfterLead(s, leads, p, i).value;
      p + |leads[i]| < sp.start && Lazy(s, sp)
  {
    var q := p + |leads[i]|;
    BacktrackSpec(s, q, SpaceRun(s, q));
  }

  /** A match through an alternative needs that alternative followed by white space. */
  lemma FiresNeedsSpace(s: string, leads: seq<string>, p: nat, i: nat)
    requires Fires(s, leads, p, i)
    ensures LeadThenSpace(s, leads, p, i)
  {
    var q := p + |leads[i]|;
    assert SpaceRun(s, q) >= 1;
  }

  /** The alternatives `i`, `i + 1`, ... tried in order at position `p`. */
  function MatchAt(s: string, leads: seq<string>, p: nat, i: nat): Option<Span>
    decreases |leads| - i
  {
    if i >= |leads| then None
    else if LeadAt(s, p, leads[i]) && AfterLead(s, leads, p, i).Some? then AfterLead(s, leads, p, i)
    else MatchAt(s, leads, p, i + 1)
  }

  /**
   * At one position the alternatives are tried in the order written: there
   * is a match exactly when some alternative from `i` on fires, and then it
   * is the match of the first one that does.
   */
  lemma {:induction false} MatchAtSpec(s: string, leads: seq<string>, p: nat, i: nat)
    ensures var r := MatchAt(s, leads, p, i);
      && (r.Some? <==> exists j: nat :: i <= j && Fires(s, leads, p, j))
      && (r.Some? ==> exists j: nat :: i <= j && Fires(s, leads, p, j) && r == AfterLead(s, leads, p, j)
                                       && forall j': nat :: i <= j' < j ==> !Fires(s, leads, p, j'))
    decreases |leads| - i
  {
    if i < |leads| {
      if Fires(s, leads, p, i) {
        assert MatchAt(s, leads, p, i) == AfterLead(s, leads, p, i);
      } else {
        MatchAtSpec(s, leads, p, i + 1);
        if j: nat :| i <= j && Fires(s, leads, p, j) {
          assert j != i;
        }
      }
    }
  }

  /** The start positions `p`, `p + 1`, ..., `|s|` tried in order. */
  function SearchFrom(s: string, leads: seq<string>, p: nat): Option<Span>
    decreases |s| + 1 - p
  {
    if p > |s| then None
    else
      var here := MatchAt(s, leads, p, 0);
      if here.Some? then here else SearchFrom(s, leads, p + 1)
  }

  /**
   * The search takes the leftmost position where the pattern fires: there is
   * a result exactly when it fires somewhere from `p` on, and the result is
   * the match at a position before which it fires nowhere.
   */
  lemma {:induction false} SearchFromSpec(s: string, leads: seq<string>, p: nat)
    ensures var r := SearchFrom(s, leads, p);
      && (r.Some? <==> exists p': nat, j: nat :: p <= p' && Fires(s, leads, p', j))
      && (r.Some? ==> exists p': nat :: p <= p' && r == MatchAt(s, leads, p', 0) && r.Some?
                                        && forall p'': nat, j: nat :: p <= p'' < p' ==> !Fires(s, leads, p'', j))
    decreases |s| + 1 - p
  {
    MatchAtSpec(s, leads, p, 0);
    if p > |s| {
      assert forall p': nat, j: nat :: p <= p' && j < |leads| ==> !LeadAt(s, p', leads[j]);
    } else if MatchAt(s, leads, p, 0).None? {
      SearchFromSpec(s, leads, p + 1);
      if p': nat, j: nat :| p <= p' && Fires(s, leads, p', j) {
        assert p' != p;
      }
    }
  }

  /** `s.match(re)` with `re` built from `leads`: the span of capture group 1 of the first match. */
  function Search(s: string, leads: seq<string>): Option<Span> {
    SearchFrom(s, leads, 0)
  }

  /**
   * The first match, in the order the regular expression engine tries them:
   * the leftmost position at which the pattern fires, at that position the
   * first alternative that fires, and that alternative's group.
   */
  lemma SearchSpec(s: string, leads: seq<string>)
    ensures Search(s, leads).Some? <==> exists p: nat, j: nat :: Fires(s, leads, p, j)
    ensures Search(s, leads).Some? ==>
              exists p: nat, j: nat :: && Fires(s, leads, p, j) && Search(s, leads) == AfterLead(s, leads, p, j)
                                      && (forall p': nat, j': nat :: p' < p ==> !Fires(s, leads, p', j'))
                                      && (forall j': nat :: j' < j ==> !Fires(s, leads, p, j'))
  {
    SearchFromSpec(s, leads, 0);
    if Search(s, leads).Some? {
      var p: nat :| Search(s, leads) == MatchAt(s, leads, p, 0) && MatchAt(s, leads, p, 0).Some?
                    && forall p'': nat, j: nat :: p'' < p ==> !Fires(s, leads, p'', j);
      MatchAtSpec(s, leads, p, 0);
    }
  }

  /** A match needs a lead-in followed by white space, and its group is a lazy group. */
  lemma SearchLazy(s: string, leads: seq<string>)
    ensures Search(s, leads).Some? ==> Announced(s, leads) && Lazy(s, Search(s, leads).value)
  {
    SearchSpec(s, leads);
    if Search(s, leads).Some? {
      var p: nat, j: nat :| Fires(s, leads, p, j) && Search(s, leads) == AfterLead(s, leads, p, j);
      FiresNeedsSpace(s, leads, p, j);
      FiresGroup(s, leads, p, j);
    }
  }

  /** Capture group 1 of the first match, as a string. */
  function Capture(s: string, leads: seq<string>): Option<string> {
    SearchLazy(s, leads);
    match Search(s, leads)
    case Some(sp) => Some(s[sp.start..sp.end])
    case None => None
  }

  /** A captured group is the text of a lazy group: not empty, and without a line break. */
  lemma CaptureSpec(s: string, leads: seq<string>)
    ensures var r := Capture(s, leads);
      && (r.None? <==> Search(s, leads).None?)
      && (r.Some? ==> Announced(s, leads) && |r.value| >= 1 && NoLineBreak(r.value))
  {
    SearchLazy(s, leads);
    if Search(s, leads).Some? {
      var sp := Search(s, leads).value;
      assert forall m :: 0 <= m < sp.end - sp.start ==> s[sp.start..sp.end][m] == s[sp.start + m];
    }
  }

  /** Without a lead-in followed by white space there is no match. */
  lemma NoLeadNoCapture(s: string, leads: seq<string>)
    requires !Announced(s, leads)
    ensures Capture(s, leads) == None
  {
    SearchLazy(s, leads);
  }

  // ---------------------------------------------------------------------------
  // On input without line breaks the backtracking collapses to a simple rule.

  /** Least index `k' >= k` with `s[k'] == '.'`, or `|s|` if there is none. */
  function DotOrEnd(s: string, k: nat): (r: nat)
    requires k <= |s|
    ensures k <= r <= |s| && (r == |s| || s[r] == '.')
    ensures forall m :: k <= m < r ==> s[m] != '.'
    decreases |s| - k
  {
    if k == |s| || s[k] == '.' then k else DotOrEnd(s, k + 1)
  }

  lemma {:induction false} LazyEndSingleLine(s: string, k: nat)
    requires 1 <= k <= |s| && NoLineBreak(s)
    ensures LazyEnd(s, k) == Some(DotOrEnd(s, k))
    decreases |s| - k
  {
    if k < |s| && s[k] != '.' {
      LazyEndSingleLine(s, k + 1);
    }
  }

  /**
   * On a single line, the group starts right after the whole white-space run
   * and ends before the next `.` (or at the end); when the run reaches the
   * end of the input, the group is the last white-space character if the run
   * has at least two, and there is no match if it has one (or none).
   */
  lemma BacktrackSingleLine(s: string, q: nat)
    requires q <= |s| && NoLineBreak(s)
    ensures var w := SpaceRun(s, q);
      && (w == 0 ==> Backtrack(s, q, w) == None)
      && (w > 0 && q + w < |s| ==> Backtrack(s, q, w) == Some(Span(q + w, DotOrEnd(s, q + w + 1))))
      && (w > 0 && q + w == |s| ==> Backtrack(s, q, w) == if w >= 2 then Some(Span(|s| - 1, |s|)) else None)
  {
    var w := SpaceRun(s, q);
    if q + w < |s| {
      if w > 0 {
        LazyEndSingleLine(s, q + w + 1);
      }
    } else if w >= 2 {
      LazyEndSingleLine(s, |s|);
    }
  }

  /**
   * A single-line message that opens with the first lead-in and white space
   * captures everything after that white space up to the first `.` (so
   * "My goal is to run a marathon." captures "to run a marathon").
   */
  lemma CaptureAfterOpeningLead(s: string, leads: seq<string>)
    requires |leads| > 0 && LeadAt(s, 0, leads[0]) && NoLineBreak(s)
    requires var w := SpaceRun(s, |leads[0]|); w > 0 && |leads[0]| + w < |s|
    ensures var j := |leads[0]| + SpaceRun(s, |leads[0]|);
      Capture(s, leads) == Some(s[j..DotOrEnd(s, j + 1)])
  {
    var q := |leads[0]|;
    var j := q + SpaceRun(s, q);
    BacktrackSingleLine(s, q);
    var sp := Span(j, DotOrEnd(s, j + 1));
    assert AfterLead(s, leads, 0, 0) == Some(sp);
    assert MatchAt(s, leads, 0, 0) == Some(sp);
    assert SearchFrom(s, leads, 0) == Some(sp);
    assert Search(s, leads) == Some(sp);
  }
}
