/**
 * The operation label derived from a statement's leading comment: the RE2 pattern
 * `^--\s+name:\s+(\w+)`, written out as a scanner over that one pattern.
 * `\s` is RE2's `[\t\n\f\r ]` and `\w` is ASCII `[0-9A-Za-z_]`.
 */
module OperationName {
  import opened Wrappers

  datatype CharClass = Space | Word

  predicate IsSpace(c: char) {
    c == '\t' || c == '\n' || c == '\U{000C}' || c == '\r' || c == ' '
  }

  predicate IsWord(c: char) {
    ('0' <= c <= '9') || ('A' <= c <= 'Z') || ('a' <= c <= 'z') || c == '_'
  }

  predicate In(c: char, k: CharClass) {
    match k
    case Space => IsSpace(c)
    case Word => IsWord(c)
  }

  predicate AllIn(s: string, k: CharClass) {
    forall i :: 0 <= i < |s| ==> In(s[i], k)
  }

  const Unknown: string := "unknown"
  const Keyword: string := "name:"

  /** Where the scanner is in the pattern. */
  datatype ScanState =
    | Dash(count: nat)                       // `count` of the two leading dashes seen
    | Gap(afterKeyword: bool, seen: bool)    // a `\s+` run, before or after the keyword
    | InKeyword(matched: nat)                // `matched` characters of the keyword seen
    | Ident(start: nat)                      // inside the `(\w+)` group that began at `start`

  /**
   * The scanner: reads `s` from offset `i` in state `st` and returns the captured
   * group, or None when the pattern fails. Only a prefix of `s` is ever read.
   */
  function Scan(s: string, i: nat, st: ScanState): Option<string>
    requires i <= |s|
    requires st.Ident? ==> st.start < i
    decreases |s| - i
  {
    if i == |s| then
      if st.Ident? then Some(s[st.start..i]) else None
    else
      var c := s[i];
      match st
      case Dash(n) =>
        if c != '-' then None
        else if n == 0 then Scan(s, i + 1, Dash(1))
        else Scan(s, i + 1, Gap(false, false))
      case Gap(afterKeyword, seen) =>
        if IsSpace(c) then Scan(s, i + 1, Gap(afterKeyword, true))
        else if !seen then None
        else if !afterKeyword then (if c == Keyword[0] then Scan(s, i + 1, InKeyword(1)) else None)
        else if IsWord(c) then Scan(s, i + 1, Ident(i))
        else None
      case InKeyword(k) =>
        if k < |Keyword| && c == Keyword[k] then
          if k + 1 == |Keyword| then Scan(s, i + 1, Gap(true, false)) else Scan(s, i + 1, InKeyword(k + 1))
        else None
      case Ident(b) =>
        if IsWord(c) then Scan(s, i + 1, Ident(b)) else Some(s[b..i])
  }

  /** The submatch of the pattern in `s`, or None when the pattern does not match. */
  function Match(s: string): (r: Option<string>)
    ensures r.Some? ==> |s| >= 2 && s[0] == '-' && s[1] == '-'
  {
    assert Scan(s, 0, Dash(0)).Some? ==> |s| >= 2 && s[0] == '-' && s[1] == '-' by {
      if |s| >= 1 && s[0] == '-' {
        assert Scan(s, 0, Dash(0)) == Scan(s, 1, Dash(1));
      }
    }
    Scan(s, 0, Dash(0))
  }

  /** The operation label: the captured identifier, or "unknown". */
  function Name(s: string): (r: string)
    ensures |r| > 0 && AllIn(r, Word)
    ensures r == Unknown || Match(s) == Some(r)
  {
    match Match(s)
    case Some(w) =>
      MatchIsWordRun(s);
      w
    case None => Unknown
  }

  /** End of the longest run of class `k` that starts at `i` (greedy `\s+` / `\w+`). */
  function RunEnd(s: string, i: nat, k: CharClass): (j: nat)
    requires i <= |s|
    ensures i <= j <= |s|
    ensures forall m :: i <= m < j ==> In(s[m], k)
    ensures j == |s| || !In(s[j], k)
    decreases |s| - i
  {
    if i < |s| && In(s[i], k) then RunEnd(s, i + 1, k) else i
  }

  /** The keyword occurs at offset `j`. */
  predicate KeywordAt(s: string, j: nat) {
    j + |Keyword| <= |s| && forall m :: 0 <= m < |Keyword| ==> s[j + m] == Keyword[m]
  }

  /** The identifier state captures up to the end of the word run. */
  lemma {:induction false} IdentRun(s: string, i: nat, b: nat)
    requires b < i <= |s|
    ensures Scan(s, i, Ident(b)) == Some(s[b..RunEnd(s, i, Word)])
    decreases |s| - i
  {
    if i < |s| && IsWord(s[i]) {
      IdentRun(s, i + 1, b);
    }
  }

  /** After the keyword: a whitespace run, then the identifier, which must be non-empty. */
  lemma {:induction false} IdentGapRun(s: string, i: nat, seen: bool)
    requires i <= |s|
    ensures var j := RunEnd(s, i, Space);
      Scan(s, i, Gap(true, seen))
        == if (seen || j > i) && j < |s| && IsWord(s[j]) then Some(s[j..RunEnd(s, j, Word)]) else None
    decreases |s| - i
  {
    if i < |s| && IsSpace(s[i]) {
      IdentGapRun(s, i + 1, true);
    } else if i < |s| && seen && IsWord(s[i]) {
      IdentRun(s, i + 1, i);
    }
  }

  /** Inside the keyword: the rest of it must follow, then the scanner is after the keyword. */
  lemma {:induction false} KeywordRun(s: string, i: nat, k: nat)
    requires 1 <= k < |Keyword| && k <= i <= |s|
    requires forall m :: 0 <= m < k ==> s[i - k + m] == Keyword[m]
    ensures Scan(s, i, InKeyword(k))
      == if KeywordAt(s, i - k) then Scan(s, i - k + |Keyword|, Gap(true, false)) else None
    decreases |Keyword| - k
  {
    if i < |s| && s[i] == Keyword[k] && k + 1 < |Keyword| {
      KeywordRun(s, i + 1, k + 1);
    }
  }

  /** Before the keyword: a whitespace run, then the keyword. */
  lemma {:induction false} KeywordGapRun(s: string, i: nat, seen: bool)
    requires i <= |s|
    ensures var j := RunEnd(s, i, Space);
      Scan(s, i, Gap(false, seen))
        == if (seen || j > i) && KeywordAt(s, j) then Scan(s, j + |Keyword|, Gap(true, false)) else None
    decreases |s| - i
  {
    if i < |s| && IsSpace(s[i]) {
      KeywordGapRun(s, i + 1, true);
    } else if i < |s| && seen && s[i] == Keyword[0] {
      KeywordRun(s, i + 1, 1);
    }
  }

  /** The pattern starts with exactly two dashes, then the first whitespace run. */
  lemma LeadingDashes(s: string)
    ensures Match(s) == if |s| < 2 || s[0] != '-' || s[1] != '-' then None else Scan(s, 2, Gap(false, false))
  {
    if |s| >= 1 && s[0] == '-' {
      assert Scan(s, 0, Dash(0)) == Scan(s, 1, Dash(1));
    }
  }

  /** The scanner finds what the greedy-run reading of the pattern finds. */
  lemma MatchByRuns(s: string)
    ensures Match(s) ==
      if |s| < 2 || s[0] != '-' || s[1] != '-' then None
      else
        var a := RunEnd(s, 2, Space);
        if a == 2 || !KeywordAt(s, a) then None
        else
          var b := RunEnd(s, a + |Keyword|, Space);
          if b == a + |Keyword| || b == |s| || !IsWord(s[b]) then None
          else Some(s[b..RunEnd(s, b, Word)])
  {
    LeadingDashes(s);
    if |s| >= 2 && s[0] == '-' && s[1] == '-' {
      var a := RunEnd(s, 2, Space);
      KeywordGapRun(s, 2, false);
      if a > 2 && KeywordAt(s, a) {
        assert Match(s) == Scan(s, a + |Keyword|, Gap(true, false));
        IdentGapRun(s, a + |Keyword|, false);
      } else {
        assert Match(s) == None;
      }
    }
  }

  /** A capture is a non-empty run of word characters. */
  lemma MatchIsWordRun(s: string)
    ensures Match(s).Some? ==> |Match(s).value| > 0 && AllIn(Match(s).value, Word)
  {
    MatchByRuns(s);
  }

  /**
   * Reference definition of a match: `s` is "--", a non-empty whitespace run, "name:",
   * a non-empty whitespace run, the identifier `w`, then `rest`, and `w` is a maximal
   * word run (the greedy `\w+`).
   */
  ghost predicate Shape(s: string, ws1: string, ws2: string, w: string, rest: string) {
    && |ws1| > 0 && AllIn(ws1, Space)
    && |ws2| > 0 && AllIn(ws2, Space)
    && |w| > 0 && AllIn(w, Word)
    && (rest == [] || !IsWord(rest[0]))
    && s == "--" + ws1 + "name:" + ws2 + w + rest
  }

  /** A run that is all of class `k` and is followed by a non-member is what RunEnd finds. */
  lemma RunEndIs(s: string, i: nat, j: nat, k: CharClass)
    requires i <= j <= |s|
    requires forall m :: i <= m < j ==> In(s[m], k)
    requires j == |s| || !In(s[j], k)
    ensures RunEnd(s, i, k) == j
  {
  }

  /** The character-level facts of a decomposition, at the offsets its parts imply. */
  lemma ShapeOffsets(s: string, ws1: string, ws2: string, w: string, rest: string, a: nat, b: nat, c: nat)
    requires Shape(s, ws1, ws2, w, rest)
    requires a == 2 + |ws1| && b == a + 5 + |ws2| && c == b + |w|
    ensures c <= |s| && s[0] == '-' && s[1] == '-'
    ensures forall m :: 2 <= m < a ==> In(s[m], Space)
    ensures KeywordAt(s, a) && !In(s[a], Space)
    ensures forall m :: a + 5 <= m < b ==> In(s[m], Space)
    ensures b < |s| && IsWord(s[b]) && !In(s[b], Space)
    ensures forall m :: b <= m < c ==> In(s[m], Word)
    ensures c == |s| || !In(s[c], Word)
  {
  }

  /** Completeness: every decomposition of the pattern's shape yields its identifier. */
  lemma MatchComplete(s: string, ws1: string, ws2: string, w: string, rest: string)
    requires Shape(s, ws1, ws2, w, rest)
    ensures Match(s) == Some(w)
    ensures Name(s) == w
  {
    var a := 2 + |ws1|;
    var b := a + 5 + |ws2|;
    var c := b + |w|;
    ShapeOffsets(s, ws1, ws2, w, rest, a, b, c);
    RunEndIs(s, 2, a, Space);
    RunEndIs(s, a + 5, b, Space);
    RunEndIs(s, b, c, Word);
    MatchByRuns(s);
    assert s[b..c] == w;
  }

  /** The offsets of a successful scan: keyword at `a`, identifier from `b` to `c`. */
  lemma MatchParts(s: string) returns (a: nat, b: nat, c: nat)
    requires Match(s).Some?
    ensures 2 < a && a + 5 < b < c <= |s|
    ensures s[0] == '-' && s[1] == '-'
    ensures forall m :: 2 <= m < a ==> IsSpace(s[m])
    ensures forall m :: 0 <= m < 5 ==> s[a + m] == Keyword[m]
    ensures forall m :: a + 5 <= m < b ==> IsSpace(s[m])
    ensures forall m :: b <= m < c ==> IsWord(s[m])
    ensures c == |s| || !IsWord(s[c])
    ensures Match(s) == Some(s[b..c])
  {
    MatchByRuns(s);
    a := RunEnd(s, 2, Space);
    b := RunEnd(s, a + 5, Space);
    c := RunEnd(s, b, Word);
  }

  /** Soundness: whatever Match returns comes from a decomposition of the pattern's shape. */
  lemma MatchSound(s: string)
    requires Match(s).Some?
    ensures exists ws1, ws2, rest :: Shape(s, ws1, ws2, Match(s).value, rest)
  {
    var a, b, c := MatchParts(s);
    var ws1, ws2, w, rest := s[2..a], s[a + 5..b], s[b..c], s[c..];
    assert s[..2] == "--";
    assert s[a..a + 5] == Keyword by {
      forall m | 0 <= m < 5 ensures s[a..a + 5][m] == Keyword[m] {
        assert s[a..a + 5][m] == s[a + m];
      }
    }
    assert s == s[..2] + ws1 + s[a..a + 5] + ws2 + w + rest;
    assert AllIn(ws1, Space) by {
      forall m | 0 <= m < |ws1| ensures In(ws1[m], Space) {
        assert ws1[m] == s[2 + m];
      }
    }
    assert AllIn(ws2, Space) by {
      forall m | 0 <= m < |ws2| ensures In(ws2[m], Space) {
        assert ws2[m] == s[a + 5 + m];
      }
    }
    assert AllIn(w, Word) by {
      forall m | 0 <= m < |w| ensures In(w[m], Word) {
        assert w[m] == s[b + m];
      }
    }
    assert Shape(s, ws1, ws2, w, rest);
  }

  /** The name is "unknown"-by-default exactly when no decomposition of the pattern's shape exists. */
  lemma MatchNoneIff(s: string)
    ensures Match(s) == None <==> forall ws1, ws2, w, rest :: !Shape(s, ws1, ws2, w, rest)
  {
    if Match(s).Some? {
      MatchSound(s);
    } else {
      forall ws1, ws2, w, rest | Shape(s, ws1, ws2, w, rest) ensures false {
        MatchComplete(s, ws1, ws2, w, rest);
      }
    }
  }

  /** Without the literal "--" at offset 0 (so leading whitespace counts) the label is "unknown". */
  lemma NoLeadingDashesIsUnknown(s: string)
    requires |s| < 2 || s[0] != '-' || s[1] != '-'
    ensures Name(s) == Unknown
  {
    MatchByRuns(s);
    if |s| >= 2 {
      assert s[..2][0] == s[0] && s[..2][1] == s[1];
    }
  }

  /** Whitespace is required between "--" and "name:". */
  lemma NoSpaceBeforeKeywordIsUnknown(s: string, rest: string)
    requires s == "--" + rest
    requires rest == [] || !IsSpace(rest[0])
    ensures Name(s) == Unknown
  {
    MatchByRuns(s);
    assert s[..2] == "--";
    if rest != [] {
      assert s[2] == rest[0];
    }
  }

  /** The keyword must be exactly "name:": the match is case-sensitive ("Name:" does not match). */
  lemma OtherKeywordIsUnknown(s: string, ws1: string, keyword: string, rest: string)
    requires |ws1| > 0 && AllIn(ws1, Space)
    requires |keyword| == 5 && keyword != "name:" && !IsSpace(keyword[0])
    requires s == "--" + ws1 + keyword + rest
    ensures Name(s) == Unknown
  {
    var a := 2 + |ws1|;
    assert s[2..a] == ws1;
    assert s[a..a + 5] == keyword;
    RunEndIs(s, 2, a, Space);
    assert !KeywordAt(s, a) by {
      var m :| 0 <= m < 5 && keyword[m] != Keyword[m];
      assert s[a + m] == keyword[m];
    }
    MatchByRuns(s);
  }

  /** Whitespace is required between "name:" and the identifier. */
  lemma NoSpaceAfterColonIsUnknown(s: string, ws1: string, rest: string)
    requires |ws1| > 0 && AllIn(ws1, Space)
    requires rest == [] || !IsSpace(rest[0])
    requires s == "--" + ws1 + "name:" + rest
    ensures Name(s) == Unknown
  {
    var a := 2 + |ws1|;
    assert s[2..a] == ws1;
    assert s[a..a + 5] == Keyword;
    assert !In(s[a], Space);
    RunEndIs(s, 2, a, Space);
    assert a + 5 == |s| || !In(s[a + 5], Space) by {
      if rest != [] {
        assert s[a + 5] == rest[0];
      }
    }
    RunEndIs(s, a + 5, a + 5, Space);
    MatchByRuns(s);
  }

  /** A sqlc-style annotation: the identifier stops at the first non-word character. */
  lemma SqlcAnnotationExample()
    ensures Name("-- name: GetAuthor :one") == "GetAuthor"
  {
    var s := "-- name: GetAuthor :one";
    assert s == "--" + " " + "name:" + " " + "GetAuthor" + " :one";
    assert Shape(s, " ", " ", "GetAuthor", " :one");
    MatchComplete(s, " ", " ", "GetAuthor", " :one");
  }
}
