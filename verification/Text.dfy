/** Plain-text searching: what `find` and `contains` mean on a sequence of characters. */
module Text {

  datatype Option<+T> = None | Some(value: T)

  /** `pat` occurs in `text` at offset `i`. */
  predicate MatchAt(text: string, i: int, pat: string) {
    0 <= i && i + |pat| <= |text| && forall j :: 0 <= j < |pat| ==> text[i + j] == pat[j]
  }

  ghost predicate Absent(text: string, pat: string) {
    forall i :: !MatchAt(text, i, pat)
  }

  /** The first occurrence of `pat` at or after `from`. */
  function Find(text: string, pat: string, from: nat): (r: Option<nat>)
    ensures r.Some? ==> from <= r.value && r.value + |pat| <= |text|
    decreases |text| - from
  {
    if |text| < from + |pat| then None
    else if MatchAt(text, from, pat) then Some(from)
    else Find(text, pat, from + 1)
  }

  /** `Find` returns the least matching offset, and nothing only when there is none. */
  lemma {:induction false} FindFirst(text: string, pat: string, from: nat)
    ensures var r := Find(text, pat, from);
            && (r.Some? ==> MatchAt(text, r.value, pat) && forall i :: from <= i < r.value ==> !MatchAt(text, i, pat))
            && (r.None? ==> forall i :: i < 0 || from <= i ==> !MatchAt(text, i, pat))
    decreases |text| - from
  {
    if from + |pat| <= |text| && !MatchAt(text, from, pat) {
      FindFirst(text, pat, from + 1);
    }
  }

  predicate Contains(text: string, pat: string) {
    Find(text, pat, 0).Some?
  }

  /**
   * No way to lay `s` over `r` so that the two agree wherever they overlap: `s` is not inside `r`,
   * does not enclose it, and neither starts the way the other ends. For an empty `r` only strings
   * of at most one character qualify.
   */
  predicate Disjoint(s: string, r: string) {
    forall d {:trigger Clash(s, r, d)} :: -|s| < d < |r| ==> Clash(s, r, d)
  }

  /** Laid over `r` at offset `d`, `s` disagrees with it somewhere. */
  predicate Clash(s: string, r: string, d: int) {
    exists j :: 0 <= j < |s| && 0 <= d + j < |r| && s[j] != r[d + j]
  }

  lemma MatchInMiddle(k: string, m: string, v: string, i: nat, s: string)
    requires i + |s| <= |m|
    ensures MatchAt(k + m + v, |k| + i, s) == MatchAt(m, i, s)
  {
    var text := k + m + v;
    assert forall j {:trigger s[j]} :: 0 <= j < |s| ==> text[|k| + i + j] == m[i + j];
  }

  lemma MatchInSuffix(text: string, base: nat, i: nat, s: string)
    requires base <= |text|
    ensures MatchAt(text, base + i, s) == MatchAt(text[base..], i, s)
  {
    assert forall j {:trigger s[j]} :: 0 <= j < |s| && base + i + j < |text| ==>
             text[base + i + j] == text[base..][i + j];
  }

  lemma AbsentFromParts(k: string, m: string, v: string, s: string)
    requires Absent(k + m + v, s)
    ensures Absent(k, s) && Absent(v, s)
  {
    forall i ensures !MatchAt(k, i, s) && !MatchAt(v, i, s) {
      if 0 <= i && i + |s| <= |k| {
        MatchInMiddle("", k, m + v, i, s);
        assert "" + k + (m + v) == k + m + v;
      }
      if 0 <= i && i + |s| <= |v| {
        MatchInMiddle(k + m, v, "", i, s);
        assert (k + m) + v + "" == k + m + v;
      }
    }
  }

  /** An occurrence in spliced text that is disjoint from the splice lies on one side of it. */
  lemma MatchInSplice(k: string, r: string, v: string, i: int, s: string)
    requires Disjoint(s, r) && s != ""
    ensures MatchAt(k + r + v, i, s) ==>
              (i + |s| <= |k| && MatchAt(k, i, s)) || (i >= |k| + |r| && MatchAt(v, i - |k| - |r|, s))
  {
    var text := k + r + v;
    var d := i - |k|;
    if i < 0 || i + |s| > |text| {
    } else if d <= -|s| {
      MatchInMiddle("", k, r + v, i, s);
      assert "" + k + (r + v) == text;
    } else if d >= |r| {
      MatchInMiddle(k + r, v, "", d - |r|, s);
      assert (k + r) + v + "" == text;
    } else {
      assert Clash(s, r, d);
      var j :| 0 <= j < |s| && 0 <= d + j < |r| && s[j] != r[d + j];
      assert text[i + j] == r[d + j];
    }
  }

  /** Text spliced in between `k` and `v` brings no occurrence of a pattern it is disjoint from. */
  lemma SpliceAbsent(k: string, r: string, v: string, s: string)
    requires Disjoint(s, r) && Absent(k, s) && Absent(v, s) && s != ""
    ensures Absent(k + r + v, s)
  {
    forall i ensures !MatchAt(k + r + v, i, s) {
      MatchInSplice(k, r, v, i, s);
    }
  }

  lemma AbsentBeforeFirst(text: string, i: nat, s: string)
    requires i <= |text| && forall j :: 0 <= j < i ==> !MatchAt(text, j, s)
    requires s != ""
    ensures Absent(text[..i], s)
  {
    forall j ensures !MatchAt(text[..i], j, s) {
      if 0 <= j && j + |s| <= i {
        MatchInMiddle("", text[..i], text[i..], j, s);
        assert "" + text[..i] + text[i..] == text;
      }
    }
  }

  lemma AbsentByChar(text: string, pat: string, j: nat)
    requires j < |pat| && pat[j] !in text
    ensures Absent(text, pat)
  {
    forall i ensures !MatchAt(text, i, pat) {
      if 0 <= i && i + |pat| <= |text| {
        assert text[i + j] in text;
      }
    }
  }
}
