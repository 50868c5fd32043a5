/**
 * The JavaScript string operations the pipeline relies on: `indexOf`,
 * `includes`, `replace` with a string pattern (first occurrence only),
 * `trim`, `split(",")`, and the comma-separated list rule
 * `split(",").map(trim).filter(nonEmpty)` of the two "add" dialogs.
 */
module Text {
  import opened Common

  /** `t` occurs in `s` starting at position `j`. */
  predicate OccursAt(s: string, t: string, j: nat) {
    j + |t| <= |s| && s[j..j + |t|] == t
  }

  /** `s.indexOf(t)`: the first position where `t` occurs in `s`. */
  function IndexOf(s: string, t: string): (r: Option<nat>)
    ensures r.Some? ==> OccursAt(s, t, r.value)
    ensures r.Some? ==> forall j: nat :: j < r.value ==> !OccursAt(s, t, j)
    ensures r.None? ==> forall j: nat :: !OccursAt(s, t, j)
    decreases |s|
  {
    if |s| < |t| then None
    else if t <= s then Some(0)
    else
      var r := IndexOf(s[1..], t);
      assert forall j: nat :: OccursAt(s, t, j + 1) <==> OccursAt(s[1..], t, j) by {
        forall j: nat ensures OccursAt(s, t, j + 1) <==> OccursAt(s[1..], t, j) {
          if j + 1 + |t| <= |s| {
            var a, b := s[j + 1..j + 1 + |t|], s[1..][j..j + |t|];
            assert |a| == |b| && forall k :: 0 <= k < |a| ==> a[k] == b[k];
          }
        }
      }
      assert !OccursAt(s, t, 0);
      match r
      case None =>
        assert forall j: nat :: !OccursAt(s, t, j) by {
          forall j: nat ensures !OccursAt(s, t, j) {
            if j > 0 { assert !OccursAt(s[1..], t, j - 1); }
          }
        }
        None
      case Some(i) =>
        assert forall j: nat :: j < i + 1 ==> !OccursAt(s, t, j) by {
          forall j: nat | j < i + 1 ensures !OccursAt(s, t, j) {
            if j > 0 { assert !OccursAt(s[1..], t, j - 1); }
          }
        }
        Some(i + 1)
  }

  /** `s.includes(t)`. */
  predicate Contains(s: string, t: string) {
    IndexOf(s, t).Some?
  }

  /** `includes` holds exactly when `t` occurs somewhere in `s`. */
  lemma ContainsIff(s: string, t: string)
    ensures Contains(s, t) <==> exists j: nat :: OccursAt(s, t, j)
  {
  }

  /** Every string contains itself, and each of its suffixes. */
  lemma {:induction false} ContainsSuffix(prefix: string, t: string)
    ensures Contains(prefix + t, t)
  {
    var s := prefix + t;
    assert OccursAt(s, t, |prefix|);
    ContainsIff(s, t);
  }

  /** `s.replace(pat, rep)` with a string pattern: only the first occurrence is replaced. */
  function ReplaceFirst(s: string, pat: string, rep: string): (r: string)
    ensures !Contains(s, pat) ==> r == s
    ensures Contains(s, pat) ==> |r| == |s| - |pat| + |rep|
    ensures Contains(s, pat) ==>
      var i := IndexOf(s, pat).value;
      r == s[..i] + rep + s[i + |pat|..]
  {
    match IndexOf(s, pat)
    case None => s
    case Some(i) => s[..i] + rep + s[i + |pat|..]
  }

  /** A string that lacks one of the pattern's characters does not contain the pattern. */
  lemma MissingCharNotContained(s: string, t: string, c: char)
    requires c in t && c !in s
    ensures !Contains(s, t)
  {
  }

  /** The first occurrence of a one-character pattern is the first position holding that character. */
  lemma IndexOfChar(p: string, c: char, rest: string)
    requires c !in p
    ensures IndexOf(p + [c] + rest, [c]) == Some(|p|)
  {
    var s := p + [c] + rest;
    assert OccursAt(s, [c], |p|);
    forall k | 0 <= k < |p| ensures s[k] != c {
      assert s[k] == p[k] && p[k] in p;
    }
    var i := IndexOf(s, [c]).value;
    assert s[i..i + 1] == [c];
    assert s[i] == c;
  }

  /** A pattern at the very start is the occurrence that gets replaced. */
  lemma ReplaceFirstAtStart(s: string, pat: string, rep: string)
    requires pat <= s
    ensures ReplaceFirst(s, pat, rep) == rep + s[|pat|..]
  {
    assert IndexOf(s, pat) == Some(0);
  }

  /**
   * The characters `trim` removes: the ASCII white space, NO-BREAK SPACE,
   * BOM and the LINE and PARAGRAPH SEPARATOR line terminators.
   */
  predicate IsSpace(c: char) {
    c == ' ' || c == '\t' || c == '\n' || c == '\r' || c == '\U{000B}' || c == '\U{000C}'
    || c == '\U{00A0}' || c == '\U{FEFF}' || c == '\U{2028}' || c == '\U{2029}'
  }

  /** No white space at either end. */
  predicate Trimmed(s: string) {
    |s| == 0 || (!IsSpace(s[0]) && !IsSpace(s[|s| - 1]))
  }

  /** The first index at or after `i` that does not hold white space, or `|s|`. */
  function SkipSpace(s: string, i: nat): (r: nat)
    requires i <= |s|
    ensures i <= r <= |s|
    ensures forall k :: i <= k < r ==> IsSpace(s[k])
    ensures r == |s| || !IsSpace(s[r])
    decreases |s| - i
  {
    if i < |s| && IsSpace(s[i]) then SkipSpace(s, i + 1) else i
  }

  /** The end of `s[lo..j]` once trailing white space is dropped. */
  function SkipSpaceBack(s: string, lo: nat, j: nat): (r: nat)
    requires lo <= j <= |s|
    ensures lo <= r <= j
    ensures forall k :: r <= k < j ==> IsSpace(s[k])
    ensures r == lo || !IsSpace(s[r - 1])
  {
    if j > lo && IsSpace(s[j - 1]) then SkipSpaceBack(s, lo, j - 1) else j
  }

  /**
   * `s.trim()`: the slice of `s` left after removing white space from both
   * ends; it starts and ends with a non-space character.
   */
  function Trim(s: string): (r: string)
    ensures Trimmed(r)
    ensures exists i: nat :: SpaceAround(s, r, i)
  {
    var b := SkipSpace(s, 0);
    var e := SkipSpaceBack(s, b, |s|);
    assert SpaceAround(s, s[b..e], b);
    s[b..e]
  }

  /** `s` is `r` with only white space before (`i` characters) and after it. */
  predicate SpaceAround(s: string, r: string, i: nat) {
    && i + |r| <= |s| && r == s[i..i + |r|]
    && (forall k :: 0 <= k < i ==> IsSpace(s[k]))
    && (forall k :: i + |r| <= k < |s| ==> IsSpace(s[k]))
  }

  /** A string with no white space at its ends is its own trim. */
  lemma TrimTrimmed(s: string)
    requires Trimmed(s)
    ensures Trim(s) == s
  {
  }

  /** `trim` is idempotent. */
  lemma TrimIdempotent(s: string)
    ensures Trim(Trim(s)) == Trim(s)
  {
    TrimTrimmed(Trim(s));
  }

  /** A string is blank when `s.trim()` is falsy, i.e. empty. */
  predicate Blank(s: string) {
    Trim(s) == ""
  }

  /** A blank string holds only white space. */
  lemma BlankIsAllSpace(s: string)
    ensures Blank(s) <==> forall k :: 0 <= k < |s| ==> IsSpace(s[k])
  {
    if Blank(s) {
      var i: nat :| SpaceAround(s, "", i);
    }
  }

  /** `s.split(sep)`: the pieces between separators; an empty string gives `[""]`. */
  function Split(s: string, sep: char): (r: seq<string>)
    ensures |r| >= 1
    ensures forall i :: 0 <= i < |r| ==> sep !in r[i]
  {
    if s == [] then [""]
    else
      var rest := Split(s[1..], sep);
      if s[0] == sep then [""] + rest
      else [[s[0]] + rest[0]] + rest[1..]
  }

  /** `pieces.join(sep)`. */
  function Join(pieces: seq<string>, sep: char): string {
    if pieces == [] then ""
    else if |pieces| == 1 then pieces[0]
    else pieces[0] + [sep] + Join(pieces[1..], sep)
  }

  /** Splitting and joining again gives back the input. */
  lemma {:induction false} JoinSplit(s: string, sep: char)
    ensures Join(Split(s, sep), sep) == s
  {
    if s != [] {
      var rest := Split(s[1..], sep);
      JoinSplit(s[1..], sep);
      if s[0] == sep {
        assert s == [sep] + s[1..];
      } else {
        if |rest| == 1 {
          assert Split(s, sep) == [[s[0]] + rest[0]];
        } else {
          assert Split(s, sep) == [[s[0]] + rest[0]] + rest[1..];
          assert Join(rest, sep) == rest[0] + [sep] + Join(rest[1..], sep);
          assert ([[s[0]] + rest[0]] + rest[1..])[1..] == rest[1..];
        }
      }
    }
  }

  /** Splitting a piece free of `sep` followed by more text. */
  lemma {:induction false} SplitPrefix(p: string, tail: string, sep: char)
    requires sep !in p
    ensures Split(p + tail, sep) == [p + Split(tail, sep)[0]] + Split(tail, sep)[1..]
    decreases |p|
  {
    if p != [] {
      assert (p + tail)[1..] == p[1..] + tail;
      SplitPrefix(p[1..], tail, sep);
      assert [p[0]] + (p[1..] + Split(tail, sep)[0]) == p + Split(tail, sep)[0];
    } else {
      var r := Split(tail, sep);
      assert p + tail == tail && p + r[0] == r[0];
      assert r == [r[0]] + r[1..];
    }
  }

  /** Joining pieces that do not contain `sep`, then splitting, gives back the pieces. */
  lemma {:induction false} SplitJoin(pieces: seq<string>, sep: char)
    requires |pieces| >= 1
    requires forall i :: 0 <= i < |pieces| ==> sep !in pieces[i]
    ensures Split(Join(pieces, sep), sep) == pieces
  {
    if |pieces| == 1 {
      SplitPrefix(pieces[0], "", sep);
      assert pieces[0] + "" == pieces[0];
    } else {
      var tail := Join(pieces[1..], sep);
      SplitJoin(pieces[1..], sep);
      assert Join(pieces, sep) == pieces[0] + ([sep] + tail);
      SplitPrefix(pieces[0], [sep] + tail, sep);
      assert ([sep] + tail)[1..] == tail;
      assert Split([sep] + tail, sep) == [""] + pieces[1..];
      assert pieces[0] + "" == pieces[0];
      assert pieces == [pieces[0]] + pieces[1..];
    }
  }

  /** `pieces.map(p => p.trim()).filter(p => p)`. */
  function TrimNonEmpty(pieces: seq<string>): (r: seq<string>)
    ensures forall i :: 0 <= i < |r| ==> r[i] != "" && Trimmed(r[i])
    ensures |r| <= |pieces|
  {
    if pieces == [] then []
    else
      var t := Trim(pieces[0]);
      if t == "" then TrimNonEmpty(pieces[1..]) else [t] + TrimNonEmpty(pieces[1..])
  }

  /**
   * `input.split(",").map(k => k.trim()).filter(k => k)`: the list items of a
   * comma-separated input, trimmed, without empty ones, in input order.
   */
  function ParseList(input: string): (r: seq<string>)
    ensures forall i :: 0 <= i < |r| ==> r[i] != "" && Trimmed(r[i]) && ',' !in r[i]
  {
    var pieces := Split(input, ',');
    TrimNonEmptyAvoids(pieces, ',');
    TrimNonEmpty(pieces)
  }

  /** Trimming and filtering pieces that do not contain `c` gives items without `c`. */
  lemma {:induction false} TrimNonEmptyAvoids(pieces: seq<string>, c: char)
    requires forall j :: 0 <= j < |pieces| ==> c !in pieces[j]
    ensures forall i :: 0 <= i < |TrimNonEmpty(pieces)| ==> c !in TrimNonEmpty(pieces)[i]
  {
    if pieces != [] {
      TrimNonEmptyAvoids(pieces[1..], c);
      TrimAvoids(pieces[0], c);
    }
  }

  /** Trimming does not introduce characters. */
  lemma TrimAvoids(s: string, c: char)
    requires c !in s
    ensures c !in Trim(s)
  {
    var r := Trim(s);
    var i: nat :| SpaceAround(s, r, i);
  }

  /** Items that are non-empty, trimmed and comma-free survive a join and a re-parse. */
  lemma ParseJoin(items: seq<string>)
    requires forall i :: 0 <= i < |items| ==> items[i] != "" && Trimmed(items[i]) && ',' !in items[i]
    ensures ParseList(Join(items, ',')) == items
  {
    if items == [] {
      assert Split("", ',') == [""];
      assert Trim("") == "";
    } else {
      SplitJoin(items, ',');
      TrimNonEmptyKeeps(items);
    }
  }

  lemma {:induction false} TrimNonEmptyKeeps(items: seq<string>)
    requires forall i :: 0 <= i < |items| ==> items[i] != "" && Trimmed(items[i])
    ensures TrimNonEmpty(items) == items
  {
    if items != [] {
      TrimTrimmed(items[0]);
      TrimNonEmptyKeeps(items[1..]);
      assert items == [items[0]] + items[1..];
    }
  }

  /** A string without `sep` is a single piece. */
  lemma SplitWithoutSep(s: string, sep: char)
    requires sep !in s
    ensures Split(s, sep) == [s]
  {
    SplitPrefix(s, "", sep);
    assert s + "" == s;
  }

  /** A blank input has no items, so skipping the insert for it drops nothing. */
  lemma BlankParsesEmpty(s: string)
    requires Blank(s)
    ensures ParseList(s) == []
  {
    BlankIsAllSpace(s);
    assert ',' !in s by {
      assert !IsSpace(',');
    }
    SplitWithoutSep(s, ',');
  }

  // ---------------------------------------------------------------------
  // Decimal numerals
  // ---------------------------------------------------------------------

  predicate IsDigit(c: char) {
    '0' <= c <= '9'
  }

  function DigitChar(d: nat): (c: char)
    requires d < 10
    ensures IsDigit(c) && c as int - '0' as int == d
  {
    ('0' as int + d) as char
  }

  /** `String(n)` for a natural number: its decimal digits, without leading zeros. */
  function Decimal(n: nat): (s: string)
    ensures |s| >= 1 && forall i :: 0 <= i < |s| ==> IsDigit(s[i])
    ensures s[0] == '0' ==> n == 0
  {
    if n < 10 then [DigitChar(n)] else Decimal(n / 10) + [DigitChar(n % 10)]
  }

  /** The value of a string of digits. */
  function DecimalValue(s: string): nat
    requires forall i :: 0 <= i < |s| ==> IsDigit(s[i])
  {
    if s == [] then 0
    else
      assert IsDigit(s[|s| - 1]);
      DecimalValue(s[..|s| - 1]) * 10 + (s[|s| - 1] as int - '0' as int)
  }

  /** Reading a numeral back gives the number. */
  lemma {:induction false} DecimalRoundTrip(n: nat)
    ensures DecimalValue(Decimal(n)) == n
  {
    if n >= 10 {
      DecimalRoundTrip(n / 10);
      var s := Decimal(n);
      assert s[..|s| - 1] == Decimal(n / 10);
    }
  }
}
