/**
 * The two pure extractors of `EmailHandler` (email_handler.py): the Netflix URL
 * cut at the next double quote, and the four-digit code of the first table cell
 * matching `<td[^>]*>\s*(\d{4})\s*</td>`.
 */
module Extract {
  import opened Wrappers
  import opened Text

  /** `_extract_netflix_url(html, base_url)`: from the first occurrence of `base` up to the next `"`. */
  function ExtractNetflixUrl(html: string, base: string): (r: Option<string>)
    ensures r.None? <==>
      || FindFrom(html, base, 0).None?
      || (forall j :: FindFrom(html, base, 0).value <= j < |html| ==> html[j] != '"')
    ensures r.Some? ==>
      var start := FindFrom(html, base, 0).value;
      && start + |r.value| < |html|
      && html[start..start + |r.value|] == r.value
      && html[start + |r.value|] == '"'
      && (forall k :: 0 <= k < |r.value| ==> r.value[k] != '"')
    ensures r.Some? && (forall k :: 0 <= k < |base| ==> base[k] != '"') ==> StartsWith(r.value, base)
  {
    match FindFrom(html, base, 0)
    case None => None
    case Some(start) =>
      match FindFrom(html, "\"", start)
      case None =>
        NoQuoteBetween(html, start, |html|);
        None
      case Some(end) =>
        NoQuoteBetween(html, start, end);
        assert html[end..end + 1] == "\"";
        UrlStartsWithBase(html, base, start, end);
        Some(html[start..end])
  }

  /** No `"` occurs in `html[start..end]` when `find('"', start)` first finds one at `end` (or none). */
  lemma NoQuoteBetween(html: string, start: nat, end: nat)
    requires end <= |html|
    requires forall j :: start <= j < end ==> !OccursAt(html, "\"", j)
    ensures forall k :: start <= k < end ==> html[k] != '"'
  {
    forall k | start <= k < end ensures html[k] != '"' {
      assert !OccursAt(html, "\"", k);
      assert html[k..k + 1] == [html[k]];
    }
  }

  lemma UrlStartsWithBase(html: string, base: string, start: nat, end: nat)
    requires OccursAt(html, base, start) && start <= end < |html| && html[end] == '"'
    ensures (forall k :: 0 <= k < |base| ==> base[k] != '"') ==> StartsWith(html[start..end], base)
  {
    if forall k :: 0 <= k < |base| ==> base[k] != '"' {
      assert html[start..start + |base|] == base;
    }
  }

  /** Index of the first `>` at or after `i`, or `|s|`: the extent of `[^>]*`. */
  function TagEnd(s: string, i: nat): (r: nat)
    requires i <= |s|
    decreases |s| - i
    ensures i <= r <= |s|
    ensures forall k :: i <= k < r ==> s[k] != '>'
    ensures r < |s| ==> s[r] == '>'
  {
    if i == |s| || s[i] == '>' then i else TagEnd(s, i + 1)
  }

  /** Index of the first non-whitespace character at or after `i`, or `|s|`: the extent of `\s*`. */
  function SkipSpaces(s: string, i: nat): (r: nat)
    requires i <= |s|
    decreases |s| - i
    ensures i <= r <= |s|
    ensures forall k :: i <= k < r ==> IsSpace(s[k])
    ensures r < |s| ==> !IsSpace(s[r])
  {
    if i == |s| || !IsSpace(s[i]) then i else SkipSpaces(s, i + 1)
  }

  predicate AllDigits(s: string)
  {
    forall k :: 0 <= k < |s| ==> IsDigit(s[k])
  }

  /**
   * One way for `s` to match the pattern from index `i`: `a` is the `>` closing the
   * tag, `d` the first of the four digits and `e` the start of `</td>`.
   */
  predicate CellSplit(s: string, i: nat, a: nat, d: nat, e: nat)
  {
    && OccursAt(s, "<td", i)
    && i + 3 <= a < |s| && s[a] == '>'
    && a + 1 <= d && d + 4 <= e
    && OccursAt(s, "</td>", e)
    && (forall k :: i + 3 <= k < a ==> s[k] != '>')
    && (forall k :: a + 1 <= k < d ==> IsSpace(s[k]))
    && AllDigits(s[d..d + 4])
    && (forall k :: d + 4 <= k < e ==> IsSpace(s[k]))
  }

  /** The regular expression matches at `i` with `code` as its captured group. */
  ghost predicate CellMatch(s: string, i: nat, code: string)
  {
    exists a: nat, d: nat, e: nat :: CellSplit(s, i, a, d, e) && s[d..d + 4] == code
  }

  /** The match at `i`, if any, found by consuming each repetition greedily. */
  function CellAt(s: string, i: nat): Option<string>
  {
    if !OccursAt(s, "<td", i) then None
    else
      var a := TagEnd(s, i + 3);
      if a == |s| then None
      else
        var d := SkipSpaces(s, a + 1);
        if d + 4 > |s| || !AllDigits(s[d..d + 4]) then None
        else
          var e := SkipSpaces(s, d + 4);
          if OccursAt(s, "</td>", e) then Some(s[d..d + 4]) else None
  }

  /** Every split of a match is the greedy one, so the greedy matcher decides the pattern exactly. */
  lemma CellAtDecides(s: string, i: nat, code: string)
    ensures CellAt(s, i) == Some(code) <==> CellMatch(s, i, code)
  {
    if CellAt(s, i) == Some(code) {
      CellAtSound(s, i);
    }
    if CellMatch(s, i, code) {
      var a: nat, d: nat, e: nat :| CellSplit(s, i, a, d, e) && s[d..d + 4] == code;
      CellAtComplete(s, i, a, d, e);
    }
  }

  lemma CellAtComplete(s: string, i: nat, a: nat, d: nat, e: nat)
    requires CellSplit(s, i, a, d, e)
    ensures CellAt(s, i) == Some(s[d..d + 4])
  {
    SplitIsGreedy(s, i, a, d, e);
    assert a != |s| && d + 4 <= |s| && AllDigits(s[d..d + 4]);
    assert OccursAt(s, "</td>", e);
  }

  lemma CellAtSound(s: string, i: nat)
    requires CellAt(s, i).Some?
    ensures CellMatch(s, i, CellAt(s, i).value)
  {
    var a := TagEnd(s, i + 3);
    var d := SkipSpaces(s, a + 1);
    var e := SkipSpaces(s, d + 4);
    assert CellSplit(s, i, a, d, e);
  }

  lemma SplitIsGreedy(s: string, i: nat, a: nat, d: nat, e: nat)
    requires CellSplit(s, i, a, d, e)
    ensures a == TagEnd(s, i + 3)
    ensures d == SkipSpaces(s, a + 1)
    ensures e == SkipSpaces(s, d + 4)
    ensures d + 4 < |s| && !IsDigit(s[d + 4])
  {
    var a' := TagEnd(s, i + 3);
    assert IsDigit(s[d..d + 4][0]);
    var d' := SkipSpaces(s, a + 1);
    assert s[e..e + 5] == "</td>";
    assert s[e] == '<';
    var e' := SkipSpaces(s, d + 4);
  }

  /** `re.search` scanning left to right from `i`. */
  function FindCell(s: string, i: nat): (r: Option<string>)
    decreases |s| + 1 - i
    ensures r.Some? ==> |r.value| == 4 && AllDigits(r.value)
  {
    if i > |s| then None
    else match CellAt(s, i)
      case Some(code) => Some(code)
      case None => FindCell(s, i + 1)
  }

  /** `_extract_verification_code_from_html`. */
  function ExtractVerificationCode(html: string): (r: Option<string>)
    ensures r.Some? ==> |r.value| == 4 && AllDigits(r.value)
  {
    FindCell(html, 0)
  }

  /** `FindCell(s, i)` returns the group of the leftmost match at or after `i`. */
  lemma {:induction false} FindCellLeftmost(s: string, i: nat)
    ensures FindCell(s, i).Some? ==>
      exists p: nat :: i <= p && CellMatch(s, p, FindCell(s, i).value)
        && forall q: nat, c :: i <= q < p ==> !CellMatch(s, q, c)
    ensures FindCell(s, i).None? ==> forall q: nat, c :: i <= q ==> !CellMatch(s, q, c)
    decreases |s| + 1 - i
  {
    if i > |s| {
      forall q: nat, c | i <= q ensures !CellMatch(s, q, c) {
        CellAtDecides(s, q, c);
      }
    } else {
      match CellAt(s, i)
      case Some(code) =>
        CellAtDecides(s, i, code);
      case None =>
        forall c ensures !CellMatch(s, i, c) {
          CellAtDecides(s, i, c);
        }
        FindCellLeftmost(s, i + 1);
        if FindCell(s, i + 1).Some? {
          var p: nat :| i + 1 <= p && CellMatch(s, p, FindCell(s, i + 1).value)
            && forall q: nat, c :: i + 1 <= q < p ==> !CellMatch(s, q, c);
          assert forall q: nat, c :: i <= q < p ==> !CellMatch(s, q, c);
        }
    }
  }

  /**
   * The extracted code is the group of the leftmost position where the pattern
   * matches, and `None` means the pattern matches nowhere.
   */
  lemma ExtractVerificationCodeIsLeftmost(html: string)
    ensures ExtractVerificationCode(html).Some? ==>
      exists p: nat :: CellMatch(html, p, ExtractVerificationCode(html).value)
        && forall q: nat, c :: q < p ==> !CellMatch(html, q, c)
    ensures ExtractVerificationCode(html).None? <==> forall q: nat, c :: !CellMatch(html, q, c)
  {
    FindCellLeftmost(html, 0);
    if ExtractVerificationCode(html).Some? {
      var p: nat :| CellMatch(html, p, ExtractVerificationCode(html).value)
        && forall q: nat, c :: q < p ==> !CellMatch(html, q, c);
    }
  }

  /** A cell whose digit run is longer than four never matches: the fifth digit is neither space nor `<`. */
  lemma FiveDigitCellNeverMatches(s: string, i: nat, a: nat, d: nat)
    requires d + 5 <= |s| && AllDigits(s[d..d + 5])
    ensures forall e: nat :: !CellSplit(s, i, a, d, e)
  {
    assert IsDigit(s[d..d + 5][4]);
    forall e: nat | CellSplit(s, i, a, d, e) ensures false {
      SplitIsGreedy(s, i, a, d, e);
      assert false;
    }
  }

  /**
   * A link written as `pre + base + tail + '"' + post`, with no earlier occurrence of
   * `base` and no quote in `base + tail`, is extracted as exactly `base + tail`.
   */
  lemma UrlOfQuotedLink(pre: string, base: string, tail: string, post: string)
    requires forall k :: 0 <= k < |base| ==> base[k] != '"'
    requires forall k :: 0 <= k < |tail| ==> tail[k] != '"'
    requires forall j: nat :: j < |pre| ==> !OccursAt(pre + base + tail + "\"" + post, base, j)
    ensures ExtractNetflixUrl(pre + base + tail + "\"" + post, base) == Some(base + tail)
  {
    var html := pre + base + tail + "\"" + post;
    var start, end := |pre|, |pre| + |base| + |tail|;
    assert html[start..start + |base|] == base;
    assert OccursAt(html, base, start);
    assert FindFrom(html, base, 0) == Some(start);
    assert html[end] == '"' && html[end..end + 1] == "\"";
    assert OccursAt(html, "\"", end);
    forall j | start <= j < end ensures !OccursAt(html, "\"", j) {
      assert html[j..j + 1] == [html[j]];
      if j < start + |base| {
        assert html[j] == base[j - start];
      } else {
        assert html[j] == tail[j - start - |base|];
      }
    }
    assert FindFrom(html, "\"", start) == Some(end);
    assert html[start..end] == base + tail;
  }

  /** A cell `<td ATTRS> CODE </td>` at the start of the text yields its four digits. */
  lemma CodeOfCell(attrs: string, before: string, code: string, after: string, rest: string)
    requires forall k :: 0 <= k < |attrs| ==> attrs[k] != '>'
    requires forall k :: 0 <= k < |before| ==> IsSpace(before[k])
    requires |code| == 4 && AllDigits(code)
    requires forall k :: 0 <= k < |after| ==> IsSpace(after[k])
    ensures ExtractVerificationCode("<td" + attrs + ">" + before + code + after + "</td>" + rest) == Some(code)
  {
    var s := "<td" + attrs + ">" + before + code + after + "</td>" + rest;
    var a := 3 + |attrs|;
    var d := a + 1 + |before|;
    var e := d + 4 + |after|;
    assert s[..3] == "<td" && s[0..0 + |"<td"|] == "<td";
    assert s[a] == '>';
    assert s[d..d + 4] == code;
    assert s[e..e + 5] == "</td>";
    assert forall k :: 3 <= k < a ==> s[k] == attrs[k - 3];
    assert forall k :: a + 1 <= k < d ==> s[k] == before[k - a - 1];
    assert forall k :: d + 4 <= k < e ==> s[k] == after[k - d - 4];
    assert CellSplit(s, 0, a, d, e);
    CellAtDecides(s, 0, code);
  }

  /** `<td>` followed by five digits and `</td>` has no four-digit code. */
  lemma FiveDigitCellYieldsNothing(digits: string)
    requires |digits| == 5 && AllDigits(digits)
    ensures ExtractVerificationCode("<td>" + digits + "</td>") == None
  {
    var s := "<td>" + digits + "</td>";
    forall q: nat, c | CellMatch(s, q, c) ensures false {
      var a: nat, d: nat, e: nat :| CellSplit(s, q, a, d, e) && s[d..d + 4] == c;
      OnlyCellStartsAtZero(digits, q);
      SplitIsGreedy(s, q, a, d, e);
      FiveDigitCellShape(digits);
      assert false;
    }
    ExtractVerificationCodeIsLeftmost(s);
  }

  lemma OnlyCellStartsAtZero(digits: string, q: nat)
    requires |digits| == 5 && AllDigits(digits)
    requires OccursAt("<td>" + digits + "</td>", "<td", q)
    ensures q == 0
  {
    var s := "<td>" + digits + "</td>";
    assert s[q..q + 3] == "<td" && s[q] == '<' && s[q + 1] == 't';
  }

  lemma FiveDigitCellShape(digits: string)
    requires |digits| == 5 && AllDigits(digits)
    ensures TagEnd("<td>" + digits + "</td>", 3) == 3
    ensures SkipSpaces("<td>" + digits + "</td>", 4) == 4
    ensures IsDigit(("<td>" + digits + "</td>")[8])
  {
    var s := "<td>" + digits + "</td>";
    assert s[3] == '>' && s[4] == digits[0] && s[8] == digits[4];
  }
}
