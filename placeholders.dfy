/** The `{{column}}` placeholders of a prompt template (nextjs_app/pages/api/models/finetune/openai.js):
    the matches of the global regex `/{{.*}}/g`, the field names stored with the template, the
    row key each match is looked up under, and the prompt a CSV row renders to.

    `.` matches every character but a line terminator and `.*` is greedy, so a match runs from a
    `{{` to the LAST `}}` on the same line: two placeholders on one line come back as one match. */
module Placeholders {
  import opened Common

  /** The characters JavaScript's `.` does not match. */
  predicate IsLineTerminator(c: char)
  {
    c == '\n' || c == '\r' || c == '\U{2028}' || c == '\U{2029}'
  }

  predicate OnOneLine(s: string)
  {
    forall k :: 0 <= k < |s| ==> !IsLineTerminator(s[k])
  }

  /** The length of the first line of `s`: the index of its first line terminator, or `|s|`. */
  function LineEnd(s: string): (e: nat)
    ensures e <= |s|
    ensures forall k :: 0 <= k < e ==> !IsLineTerminator(s[k])
    ensures e < |s| ==> IsLineTerminator(s[e])
  {
    if s == [] || IsLineTerminator(s[0]) then 0 else 1 + LineEnd(s[1..])
  }

  /** The last index `j` with `lo <= j` and `j + 2 <= hi` where `}}` occurs. */
  function LastClose(s: string, lo: nat, hi: nat): (r: Option<nat>)
    requires hi <= |s|
    ensures r.Some? ==> lo <= r.value && r.value + 2 <= hi && OccursAt(s, "}}", r.value)
    ensures r.Some? ==> forall j :: r.value < j && j + 2 <= hi ==> !OccursAt(s, "}}", j)
    ensures r.None? ==> forall j :: lo <= j && j + 2 <= hi ==> !OccursAt(s, "}}", j)
    decreases hi
  {
    if hi < lo + 2 then None
    else if OccursAt(s, "}}", hi - 2) then Some(hi - 2)
    else LastClose(s, lo, hi - 1)
  }

  /** What one regex match looks like: `{{`, then `}}` at the end, all on one line. */
  predicate IsMatch(m: string)
  {
    |m| >= 4 && StartsWith(m, "{{") && m[|m| - 2..] == "}}" && OnOneLine(m)
  }

  /** The length of the match the regex finds at the very start of `s`, if any: `{{`, then the
      longest stretch of the first line that is followed by `}}`, then that `}}`. */
  function MatchLen(s: string): (n: Option<nat>)
    ensures n.Some? ==> 4 <= n.value <= LineEnd(s) && StartsWith(s, "{{") && OccursAt(s, "}}", n.value - 2)
    ensures n.Some? ==> forall j :: n.value - 2 < j && j + 2 <= LineEnd(s) ==> !OccursAt(s, "}}", j)
    ensures n.None? && StartsWith(s, "{{") ==> forall j :: 2 <= j && j + 2 <= LineEnd(s) ==> !OccursAt(s, "}}", j)
  {
    if StartsWith(s, "{{") then
      match LastClose(s, 2, LineEnd(s))
      case None => None
      case Some(j) => Some(j + 2)
    else None
  }

  /** `s.match(/{{.*}}/g)`, with no match as the empty list (JavaScript gives `null`): the matches
      in order, the search resuming right behind a match and elsewhere one character further on. */
  function Matches(s: string): (ms: seq<string>)
    ensures forall k :: 0 <= k < |ms| ==> |ms[k]| >= 4
    decreases |s|
  {
    if s == [] then []
    else
      match MatchLen(s)
      case Some(n) => [s[..n]] + Matches(s[n..])
      case None => Matches(s[1..])
  }

  /** `m.substring(2, m.length - 2)`: a match without its braces. */
  function Field(m: string): (f: string)
    requires |m| >= 4
    ensures m == m[..2] + f + m[|m| - 2..]
  {
    m[2..|m| - 2]
  }

  /** `matchesStrings`: the field names, each once, in order of first appearance. */
  function MatchesStrings(matches: seq<string>): (fields: seq<string>)
    requires forall k :: 0 <= k < |matches| ==> |matches[k]| >= 4
    ensures NoDuplicates(fields)
    ensures forall f :: f in fields <==> exists k :: 0 <= k < |matches| && f == Field(matches[k])
  {
    var all := seq(|matches|, k requires 0 <= k < |matches| => Field(matches[k]));
    assert forall k :: 0 <= k < |matches| ==> all[k] == Field(matches[k]);
    Distinct(all)
  }

  /** `match.replace('{{','').replace('}}','')`: the row key a match is looked up under. Both
      replacements act on the first occurrence only. */
  function KeyOf(m: string): string
  {
    ReplaceFirst(ReplaceFirst(m, "{{", ""), "}}", "")
  }

  /** The prompt for one row: the template with, match after match, the first occurrence of the
      match in the prompt so far replaced by the row's value for the match's key (`undefined`
      when the row has no such column). */
  function Render(template: string, matches: seq<string>, row: Row): string
    decreases |matches|
  {
    if matches == [] then template
    else
      var n := |matches| - 1;
      ReplaceFirst(Render(template, matches[..n], row), matches[n], JsString(Cell(row, KeyOf(matches[n]))))
  }

  // ----- The scan ----------------------------------------------------------------------------

  /** A match is `{{`, then `}}` at its end, with no line terminator in it. */
  lemma MatchLenIsMatch(s: string)
    requires MatchLen(s).Some?
    ensures IsMatch(s[..MatchLen(s).value])
  {
    var j := LastClose(s, 2, LineEnd(s)).value;
    var m := s[..j + 2];
    assert m[..2] == s[..2];
    assert m[|m| - 2..] == s[j..j + 2];
    assert forall k :: 0 <= k < |m| ==> m[k] == s[k];
  }

  /** Every element of `match`'s result is a match: none spans two lines. */
  lemma {:induction false} MatchesAreWellFormed(s: string)
    ensures forall k :: 0 <= k < |Matches(s)| ==> IsMatch(Matches(s)[k])
    decreases |s|
  {
    if s != [] {
      match MatchLen(s)
      case Some(n) =>
        MatchLenIsMatch(s);
        MatchesAreWellFormed(s[n..]);
      case None =>
        MatchesAreWellFormed(s[1..]);
    }
  }

  /** Text without `{` in front of the rest contributes no match and does not change the rest's. */
  lemma {:induction false} SkipWithoutOpen(pre: string, rest: string)
    requires '{' !in pre
    ensures Matches(pre + rest) == Matches(rest)
    decreases |pre|
  {
    if pre != [] {
      var s := pre + rest;
      assert s[0] == pre[0];
      assert !StartsWith(s, "{{") by {
        if |s| >= 2 { assert s[..2][0] == s[0]; }
      }
      assert Matches(s) == Matches(s[1..]);
      assert s[1..] == pre[1..] + rest;
      assert '{' !in pre[1..] by {
        forall k | 0 <= k < |pre| - 1 ensures pre[1..][k] != '{' { assert pre[1..][k] == pre[k + 1]; }
      }
      SkipWithoutOpen(pre[1..], rest);
    } else {
      assert pre + rest == rest;
    }
  }

  /** Without a `}`, nothing is matched. */
  lemma {:induction false} NoMatchWithoutClose(s: string)
    requires '}' !in s
    ensures Matches(s) == []
    decreases |s|
  {
    if s != [] {
      assert MatchLen(s).None? by {
        if StartsWith(s, "{{") {
          forall j | 2 <= j && j + 2 <= LineEnd(s)
            ensures !OccursAt(s, "}}", j)
          {
            assert s[j..j + 2][0] == s[j];
          }
        }
      }
      assert '}' !in s[1..] by {
        forall k | 0 <= k < |s| - 1 ensures s[1..][k] != '}' { assert s[1..][k] == s[k + 1]; }
      }
      NoMatchWithoutClose(s[1..]);
    }
  }

  /** `{{` at `i` and a later `}}` at `j` with no line terminator from the one to the other: a
      placeholder the regex can see. */
  predicate PlaceholderAt(s: string, i: nat, j: nat)
  {
    i + 2 <= j && OccursAt(s, "{{", i) && OccursAt(s, "}}", j) && OnOneLine(s[i..j + 2])
  }

  /** A template holding a `{{` followed by a `}}` on the same line has a match. */
  lemma {:induction false} PlaceholderGivesMatch(s: string, i: nat, j: nat)
    requires PlaceholderAt(s, i, j)
    ensures Matches(s) != []
    decreases i
  {
    if i == 0 {
      forall k | 0 <= k < j + 2 ensures !IsLineTerminator(s[k]) {
        assert s[i..j + 2][k] == s[k];
      }
      assert LineEnd(s) >= j + 2;
      assert StartsWith(s, "{{") by { assert s[..2] == s[0..2]; }
      assert MatchLen(s).Some?;
    } else if MatchLen(s).None? {
        var t := s[1..];
        assert t[i - 1..i + 1] == s[i..i + 2];
        assert t[j - 1..j + 1] == s[j..j + 2];
        assert t[i - 1..j + 1] == s[i..j + 2];
        PlaceholderGivesMatch(t, i - 1, j - 1);
    }
  }

  /** A template with a match holds a `{{` followed by a `}}` on the same line. */
  lemma {:induction false} MatchHasPlaceholder(s: string)
    requires Matches(s) != []
    ensures exists i: nat, j: nat :: PlaceholderAt(s, i, j)
    decreases |s|
  {
    match MatchLen(s)
    case Some(n) =>
      MatchLenIsMatch(s);
      assert s[0..n] == s[..n];
      assert s[0..2] == s[..2];
      assert PlaceholderAt(s, 0, n - 2);
    case None =>
      var t := s[1..];
      MatchHasPlaceholder(t);
      var i: nat, j: nat :| PlaceholderAt(t, i, j);
      assert t[i..i + 2] == s[i + 1..i + 3];
      assert t[j..j + 2] == s[j + 1..j + 3];
      assert t[i..j + 2] == s[i + 1..j + 3];
      assert PlaceholderAt(s, i + 1, j + 1);
  }

  /** `match` finds nothing exactly when no line of the template holds a `{{` followed by a `}}`. */
  lemma NoMatchesIffNoPlaceholder(s: string)
    ensures Matches(s) == [] <==> !exists i: nat, j: nat :: PlaceholderAt(s, i, j)
  {
    if Matches(s) != [] {
      MatchHasPlaceholder(s);
    }
    if exists i: nat, j: nat :: PlaceholderAt(s, i, j) {
      var i: nat, j: nat :| PlaceholderAt(s, i, j);
      PlaceholderGivesMatch(s, i, j);
    }
  }

  /** Dropping the first `n` characters moves every occurrence `n` places to the left. */
  lemma OccursShift(s: string, pat: string, n: nat, k: nat)
    requires n <= |s|
    ensures OccursAt(s[n..], pat, k) <==> OccursAt(s, pat, n + k)
  {
    if n + k + |pat| <= |s| {
      assert s[n..][k..k + |pat|] == s[n + k..n + k + |pat|];
    }
  }

  /** Text with no `}}` anywhere has no match. */
  lemma {:induction false} NoCloseNoMatch(s: string)
    requires forall k: nat :: !OccursAt(s, "}}", k)
    ensures Matches(s) == []
    decreases |s|
  {
    if s != [] {
      assert MatchLen(s).None?;
      var t := s[1..];
      forall k: nat ensures !OccursAt(t, "}}", k) {
        OccursShift(s, "}}", 1, k);
      }
      NoCloseNoMatch(t);
    }
  }

  /** A line starting with `{{` is one match, up to the last `}}` on it. */
  lemma OneLineMatchAtStart(s: string, j: nat)
    requires OnOneLine(s) && StartsWith(s, "{{")
    requires 2 <= j && OccursAt(s, "}}", j) && forall k: nat :: j < k ==> !OccursAt(s, "}}", k)
    ensures Matches(s) == [s[..j + 2]]
  {
    assert LineEnd(s) == |s|;
    MatchLenAt(s, j);
    var rest := s[j + 2..];
    forall k: nat ensures !OccursAt(rest, "}}", k) {
      OccursShift(s, "}}", j + 2, k);
    }
    NoCloseNoMatch(rest);
  }

  /** On a single line, the one match runs from the first `{{` to the last `}}` after it. */
  lemma {:induction false} OneLineMatch(s: string, i: nat, j: nat)
    requires OnOneLine(s)
    requires OccursAt(s, "{{", i) && forall k: nat :: k < i ==> !OccursAt(s, "{{", k)
    requires i + 2 <= j && OccursAt(s, "}}", j) && forall k: nat :: j < k ==> !OccursAt(s, "}}", k)
    ensures Matches(s) == [s[i..j + 2]]
    decreases i
  {
    if i == 0 {
      assert StartsWith(s, "{{") by { assert s[..2] == s[0..2]; }
      OneLineMatchAtStart(s, j);
      assert s[..j + 2] == s[0..j + 2];
    } else {
      assert !StartsWith(s, "{{") by { assert !OccursAt(s, "{{", 0); }
      assert Matches(s) == Matches(s[1..]);
      DropFirstOfLine(s, i, j);
      OneLineMatch(s[1..], i - 1, j - 1);
      assert s[1..][i - 1..j + 1] == s[i..j + 2];
    }
  }

  /** Dropping the first character of a line that does not start with the first `{{` keeps the
      line's shape, with the first `{{` and the last `}}` one place further left. */
  lemma DropFirstOfLine(s: string, i: nat, j: nat)
    requires OnOneLine(s) && 0 < i
    requires OccursAt(s, "{{", i) && forall k: nat :: k < i ==> !OccursAt(s, "{{", k)
    requires i + 2 <= j && OccursAt(s, "}}", j) && forall k: nat :: j < k ==> !OccursAt(s, "}}", k)
    ensures var t := s[1..];
      && OnOneLine(t)
      && OccursAt(t, "{{", i - 1) && (forall k: nat :: k < i - 1 ==> !OccursAt(t, "{{", k))
      && OccursAt(t, "}}", j - 1) && (forall k: nat :: j - 1 < k ==> !OccursAt(t, "}}", k))
  {
    var t := s[1..];
    forall k | 0 <= k < |t| ensures !IsLineTerminator(t[k]) { assert t[k] == s[k + 1]; }
    OccursShift(s, "{{", 1, i - 1);
    forall k: nat | k < i - 1 ensures !OccursAt(t, "{{", k) {
      OccursShift(s, "{{", 1, k);
    }
    OccursShift(s, "}}", 1, j - 1);
    forall k: nat | j - 1 < k ensures !OccursAt(t, "}}", k) {
      OccursShift(s, "}}", 1, k);
    }
  }

  /** A single line that starts with `{{` and ends with `}}` is one match, whatever placeholders
      it holds in between. */
  lemma GreedyWholeLine(s: string)
    requires |s| >= 4 && StartsWith(s, "{{") && s[|s| - 2..] == "}}" && OnOneLine(s)
    ensures Matches(s) == [s]
  {
    assert LineEnd(s) == |s|;
    assert OccursAt(s, "}}", |s| - 2);
    LastCloseAt(s, 2, |s|, |s| - 2);
    assert MatchLen(s) == Some(|s|);
    WholeMatch(s);
  }

  /** A match covering the whole text is its only match. */
  lemma WholeMatch(s: string)
    requires s != [] && MatchLen(s) == Some(|s|)
    ensures Matches(s) == [s]
  {
    assert s[..|s|] == s;
    assert s[|s|..] == [];
  }

  // ----- Lines are matched independently ------------------------------------------------------

  lemma {:induction false} LineEndBeforeBreak(x: string, t: char, y: string)
    requires IsLineTerminator(t)
    ensures LineEnd(x + [t] + y) == LineEnd(x)
    decreases |x|
  {
    if x != [] {
      assert (x + [t] + y)[0] == x[0];
      if !IsLineTerminator(x[0]) {
        assert (x + [t] + y)[1..] == x[1..] + [t] + y;
        LineEndBeforeBreak(x[1..], t, y);
      }
    }
  }

  lemma {:induction false} LastClosePrefix(x: string, s: string, lo: nat, hi: nat)
    requires x <= s && hi <= |x|
    ensures LastClose(s, lo, hi) == LastClose(x, lo, hi)
    decreases hi
  {
    if hi >= lo + 2 {
      assert s[hi - 2..hi] == x[hi - 2..hi];
      LastClosePrefix(x, s, lo, hi - 1);
    }
  }

  /** The match at the start only looks at the first line. */
  lemma MatchLenBeforeBreak(x: string, t: char, y: string)
    requires IsLineTerminator(t) && x != []
    ensures MatchLen(x + [t] + y) == MatchLen(x)
  {
    var s := x + [t] + y;
    LineEndBeforeBreak(x, t, y);
    LastClosePrefix(x, s, 2, LineEnd(x));
    if |x| >= 2 {
      assert s[..2] == x[..2];
    } else {
      assert s[1] == t;
    }
  }

  /** No match crosses a line break: the matches of two lines joined by a line terminator are the
      matches of the first line followed by those of the second. */
  lemma {:induction false} MatchesSplitAtLineBreak(x: string, t: char, y: string)
    requires IsLineTerminator(t)
    ensures Matches(x + [t] + y) == Matches(x) + Matches(y)
    decreases |x|
  {
    var s := x + [t] + y;
    if x == [] {
      assert s[0] == t && s[1..] == y;
      assert MatchLen(s).None?;
    } else {
      MatchLenBeforeBreak(x, t, y);
      match MatchLen(x)
      case Some(n) =>
        MatchLenIsMatch(x);
        assert s[..n] == x[..n];
        assert s[n..] == x[n..] + [t] + y;
        MatchesSplitAtLineBreak(x[n..], t, y);
      case None =>
        assert s[1..] == x[1..] + [t] + y;
        MatchesSplitAtLineBreak(x[1..], t, y);
    }
  }

  // ----- Keys and fields ---------------------------------------------------------------------

  /** Removing `{{` from a match always removes its leading braces. */
  lemma KeyOfDropsOpening(m: string)
    requires StartsWith(m, "{{")
    ensures KeyOf(m) == ReplaceFirst(m[2..], "}}", "")
  {
    assert OccursAt(m, "{{", 0);
    assert m[..0] + "" + m[2..] == m[2..];
  }

  /** Removing the first `}}` from text whose first `}}` follows a stretch without `}`. */
  lemma RemoveFirstClose(a: string, r: string)
    requires '}' !in a
    ensures ReplaceFirst(a + "}}" + r, "}}", "") == a + r
  {
    var s := a + "}}" + r;
    assert s[|a|..|a| + 2] == "}}";
    assert OccursAt(s, "}}", |a|);
    forall j | 0 <= j < |a|
      ensures !OccursAt(s, "}}", j)
    {
      assert s[j] == a[j];
      if j + 2 <= |s| { assert s[j..j + 2][0] == s[j]; }
    }
    assert IndexOf(s, "}}") == Some(|a|);
    assert s[..|a|] == a && s[|a| + 2..] == r;
  }

  /** The shape of `"{{" + f + "}}"`. */
  lemma Braced(f: string)
    ensures var m := "{{" + f + "}}";
      |m| >= 4 && StartsWith(m, "{{") && m[|m| - 2..] == "}}" && Field(m) == f && m[2..] == f + "}}"
  {
    var m := "{{" + f + "}}";
    assert m[2..] == f + "}}";
    assert m[..2] == "{{";
    assert m[|m| - 2..] == "}}";
    assert m[2..|m| - 2] == f;
  }

  lemma TwoPlaceholdersOnOneLine(a: string, mid: string, b: string)
    requires OnOneLine(a) && OnOneLine(mid) && OnOneLine(b)
    ensures OnOneLine("{{" + (a + "}}" + mid + "{{" + b) + "}}")
  {
    assert OnOneLine("{{") && OnOneLine("}}");
    OnOneLineJoin(a, "}}");
    OnOneLineJoin(a + "}}", mid);
    OnOneLineJoin(a + "}}" + mid, "{{");
    OnOneLineJoin(a + "}}" + mid + "{{", b);
    OnOneLineJoin("{{", a + "}}" + mid + "{{" + b);
    OnOneLineJoin("{{" + (a + "}}" + mid + "{{" + b), "}}");
  }

  lemma OnOneLineJoin(x: string, y: string)
    requires OnOneLine(x) && OnOneLine(y)
    ensures OnOneLine(x + y)
  {
    forall k | 0 <= k < |x + y|
      ensures !IsLineTerminator((x + y)[k])
    {
      if k >= |x| { assert (x + y)[k] == y[k - |x|]; }
    }
  }

  /** For a plain placeholder the looked-up key and the stored field name agree. */
  lemma KeyOfPlainPlaceholder(k: string)
    requires '}' !in k
    ensures KeyOf("{{" + k + "}}") == k == Field("{{" + k + "}}")
  {
    var m := "{{" + k + "}}";
    KeyOfDropsOpening(m);
    assert m[2..] == k + "}}" + "";
    RemoveFirstClose(k, "");
    assert k + "" == k;
  }

  /** The stored field names of a single match. */
  lemma MatchesStringsOfOne(m: string)
    requires |m| >= 4
    ensures MatchesStrings([m]) == [Field(m)]
  {
    var all := seq(1, k requires 0 <= k < 1 => Field([m][k]));
    assert all == [Field(m)];
    assert [Field(m)][..0] == [];
  }

  /** Two placeholders on one line, `{{a}}mid{{b}}`, are a single match. Its stored field name
      keeps the inner `}}` and `{{`, while the key it is looked up under loses the first `}}` only. */
  lemma TwoPlaceholdersOneLine(a: string, mid: string, b: string)
    requires '}' !in a
    requires OnOneLine(a) && OnOneLine(mid) && OnOneLine(b)
    ensures var field := a + "}}" + mid + "{{" + b;
      var m := "{{" + field + "}}";
      && Matches(m) == [m]
      && MatchesStrings(Matches(m)) == [field]
      && KeyOf(m) == a + mid + "{{" + b + "}}"
  {
    var field := a + "}}" + mid + "{{" + b;
    var m := "{{" + field + "}}";
    TwoPlaceholdersOnOneLine(a, mid, b);
    Braced(field);
    GreedyWholeLine(m);
    MatchesStringsOfOne(m);
    KeyOfDropsOpening(m);
    var r := mid + "{{" + b + "}}";
    Regroup(a + "}}", mid, b);
    RemoveFirstClose(a, r);
    Regroup(a, mid, b);
  }

  lemma AppendAssoc<T>(x: seq<T>, y: seq<T>, z: seq<T>)
    ensures x + (y + z) == (x + y) + z
  {
  }

  lemma Regroup(x: string, mid: string, b: string)
    ensures x + (mid + "{{" + b + "}}") == x + mid + "{{" + b + "}}"
  {
    AppendAssoc(x, (mid + "{{") + b, "}}");
    AppendAssoc(x, mid + "{{", b);
    AppendAssoc(x, mid, "{{");
  }

  // ----- Rendering ---------------------------------------------------------------------------

  /** A plain placeholder followed by text without `}` is the only match. */
  lemma PlaceholderThenText(key: string, post: string)
    requires '}' !in key && OnOneLine(key) && '}' !in post
    ensures Matches("{{" + key + "}}" + post) == ["{{" + key + "}}"]
  {
    var m := "{{" + key + "}}";
    var s := m + post;
    PlaceholderMatchLen(key, post);
    assert s[..|m|] == m && s[|m|..] == post;
    NoMatchWithoutClose(post);
  }

  /** The match at the start of a plain placeholder followed by text without `}` is the
      placeholder. */
  lemma PlaceholderMatchLen(key: string, post: string)
    requires '}' !in key && OnOneLine(key) && '}' !in post
    ensures MatchLen("{{" + key + "}}" + post) == Some(|key| + 4)
  {
    var m := "{{" + key + "}}";
    var s := m + post;
    Braced(key);
    BracedOnOneLine(key);
    assert s[..2] == "{{";
    LineEndPast(m, post);
    assert s[|m| - 2..|m|] == "}}";
    NoCloseAfter(m, post);
    MatchLenAt(s, |m| - 2);
  }

  /** Past the end of `m`, text without `}` holds no `}}`. */
  lemma NoCloseAfter(m: string, post: string)
    requires |m| >= 2 && '}' !in post
    ensures forall j :: |m| - 2 < j && j + 2 <= |m + post| ==> !OccursAt(m + post, "}}", j)
  {
    var s := m + post;
    forall j | |m| - 2 < j && j + 2 <= |s|
      ensures !OccursAt(s, "}}", j)
    {
      assert s[j + 1] == post[j + 1 - |m|];
      assert s[j..j + 2][1] == s[j + 1];
    }
  }

  /** A match at the start ends with the last `}}` of the first line. */
  lemma MatchLenAt(s: string, j: nat)
    requires StartsWith(s, "{{") && 2 <= j && j + 2 <= LineEnd(s) && OccursAt(s, "}}", j)
    requires forall i :: j < i && i + 2 <= LineEnd(s) ==> !OccursAt(s, "}}", i)
    ensures MatchLen(s) == Some(j + 2)
  {
    LastCloseAt(s, 2, LineEnd(s), j);
  }

  /** `{{key}}` lies on one line when `key` does. */
  lemma BracedOnOneLine(key: string)
    requires OnOneLine(key)
    ensures OnOneLine("{{" + key + "}}")
  {
    assert OnOneLine("{{") && OnOneLine("}}");
    OnOneLineJoin("{{", key);
    OnOneLineJoin("{{" + key, "}}");
  }

  /** A first line that begins with a whole line's worth of `x` ends no sooner than `x`. */
  lemma {:induction false} LineEndPast(x: string, y: string)
    requires OnOneLine(x)
    ensures LineEnd(x + y) >= |x|
    decreases |x|
  {
    if x != [] {
      assert (x + y)[0] == x[0];
      assert (x + y)[1..] == x[1..] + y;
      assert OnOneLine(x[1..]) by {
        forall k | 0 <= k < |x| - 1 ensures !IsLineTerminator(x[1..][k]) { assert x[1..][k] == x[k + 1]; }
      }
      LineEndPast(x[1..], y);
    }
  }

  /** The last `}}` in a range is one with no `}}` after it. */
  lemma LastCloseAt(s: string, lo: nat, hi: nat, j: nat)
    requires hi <= |s| && lo <= j && j + 2 <= hi && OccursAt(s, "}}", j)
    requires forall i :: j < i && i + 2 <= hi ==> !OccursAt(s, "}}", i)
    ensures LastClose(s, lo, hi) == Some(j)
  {
  }

  /** A template with one plain placeholder renders the row's value (or `undefined`) in its place
      and leaves the text around it alone. */
  lemma FillsSinglePlaceholder(pre: string, key: string, post: string, row: Row)
    requires '{' !in pre && '}' !in key && OnOneLine(key) && '}' !in post
    ensures var t := pre + "{{" + key + "}}" + post;
      && Matches(t) == ["{{" + key + "}}"]
      && MatchesStrings(Matches(t)) == [key]
      && Render(t, Matches(t), row) == pre + JsString(Cell(row, key)) + post
  {
    var t := pre + "{{" + key + "}}" + post;
    var m := "{{" + key + "}}";
    assert t == pre + (m + post) == pre + m + post;
    SkipWithoutOpen(pre, m + post);
    PlaceholderThenText(key, post);
    assert Matches(t) == [m];
    Braced(key);
    MatchesStringsOfOne(m);
    RenderOneMatch(pre, m, post, JsString(Cell(row, KeyOf(m))), row);
    KeyOfPlainPlaceholder(key);
  }

  /** With `pre` free of `{`, replacing the first occurrence of `m` (which starts with `{`) hits
      the copy right after `pre`. */
  lemma RenderOneMatch(pre: string, m: string, post: string, v: string, row: Row)
    requires '{' !in pre && |m| > 0 && m[0] == '{' && v == JsString(Cell(row, KeyOf(m)))
    ensures Render(pre + m + post, [m], row) == pre + v + post
  {
    var t := pre + m + post;
    assert OccursAt(t, m, |pre|) by { assert t[|pre|..|pre| + |m|] == m; }
    forall j | 0 <= j < |pre|
      ensures !OccursAt(t, m, j)
    {
      assert t[j] == pre[j];
      if j + |m| <= |t| { assert t[j..j + |m|][0] == t[j]; }
    }
    assert IndexOf(t, m) == Some(|pre|);
    assert [m][..0] == [];
    assert t[..|pre|] == pre && t[|pre| + |m|..] == post;
  }
}
