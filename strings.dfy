/**
 * The pieces of the .NET string API that the modelled code relies on:
 * `Split`, joining with a separator, `TrimEnd`, StringBuilder's `AppendLine`,
 * `{0:D}` integer formatting and an ordinal string order.
 */
module Strings {

  // ---------------------------------------------------------------- Split / Join

  /** `s.Split(sep)`: the pieces between separators, empty pieces included. */
  function Split(s: string, sep: char): (pieces: seq<string>)
    ensures |pieces| >= 1
    ensures forall k :: 0 <= k < |pieces| ==> sep !in pieces[k]
    decreases |s|
  {
    if s == [] then [""]
    else
      var rest := Split(s[1..], sep);
      if s[0] == sep then [""] + rest
      else [[s[0]] + rest[0]] + rest[1..]
  }

  /** The pieces with `sep` between each two consecutive ones. */
  function Join(pieces: seq<string>, sep: string): string
  {
    if |pieces| == 0 then ""
    else if |pieces| == 1 then pieces[0]
    else pieces[0] + sep + Join(pieces[1..], sep)
  }

  /** A separator-free prefix extends the first piece of what follows it. */
  lemma {:induction false} SplitPrefix(p: string, t: string, sep: char)
    requires sep !in p
    ensures Split(p + t, sep) == [p + Split(t, sep)[0]] + Split(t, sep)[1..]
  {
    if p == [] {
      assert p + t == t;
      var pieces := Split(t, sep);
      assert p + pieces[0] == pieces[0];
      assert pieces == [pieces[0]] + pieces[1..];
    } else {
      assert (p + t)[0] == p[0];
      assert (p + t)[1..] == p[1..] + t;
      SplitPrefix(p[1..], t, sep);
      assert [p[0]] + (p[1..] + Split(t, sep)[0]) == p + Split(t, sep)[0];
    }
  }

  /** Splitting a join of separator-free pieces gives the pieces back. */
  lemma {:induction false} SplitJoin(pieces: seq<string>, sep: char)
    requires |pieces| >= 1
    requires forall k :: 0 <= k < |pieces| ==> sep !in pieces[k]
    ensures Split(Join(pieces, [sep]), sep) == pieces
  {
    if |pieces| == 1 {
      SplitPrefix(pieces[0], "", sep);
      assert pieces[0] + "" == pieces[0];
    } else {
      var rest := Join(pieces[1..], [sep]);
      SplitJoin(pieces[1..], sep);
      assert Join(pieces, [sep]) == pieces[0] + ([sep] + rest);
      SplitPrefix(pieces[0], [sep] + rest, sep);
      assert ([sep] + rest)[0] == sep;
      assert ([sep] + rest)[1..] == rest;
      assert Split([sep] + rest, sep) == [""] + pieces[1..];
      assert pieces[0] + "" == pieces[0];
      assert pieces == [pieces[0]] + pieces[1..];
    }
  }

  /** Joining one more piece at the end. */
  lemma {:induction false} JoinSnoc(pieces: seq<string>, last: string, sep: string)
    requires |pieces| >= 1
    ensures Join(pieces + [last], sep) == Join(pieces, sep) + sep + last
  {
    if |pieces| == 1 {
      assert (pieces + [last])[1..] == [last];
    } else {
      assert (pieces + [last])[1..] == pieces[1..] + [last];
      JoinSnoc(pieces[1..], last, sep);
    }
  }

  /** The pieces that are not empty, in their order. */
  function NonEmpty(pieces: seq<string>): (r: seq<string>)
    ensures forall k :: 0 <= k < |r| ==> r[k] != "" && r[k] in pieces
    ensures (forall k :: 0 <= k < |pieces| ==> pieces[k] != "") ==> r == pieces
  {
    if pieces == [] then []
    else (if pieces[0] == "" then [] else [pieces[0]]) + NonEmpty(pieces[1..])
  }

  /** Filtering distributes over concatenation: the kept pieces keep their order. */
  lemma {:induction false} NonEmptyAppend(a: seq<string>, b: seq<string>)
    ensures NonEmpty(a + b) == NonEmpty(a) + NonEmpty(b)
  {
    if a == [] {
      assert a + b == b;
    } else {
      assert (a + b)[1..] == a[1..] + b;
      NonEmptyAppend(a[1..], b);
    }
  }

  /** A single piece is kept exactly when it is not empty. */
  lemma NonEmptySingle(x: string)
    ensures NonEmpty([x]) == (if x == "" then [] else [x])
  {
    assert [x][1..] == [];
  }

  /** Every non-empty piece survives, as often as it occurs. */
  lemma {:induction false} NonEmptyCounts(pieces: seq<string>, x: string)
    requires x != ""
    ensures multiset(NonEmpty(pieces))[x] == multiset(pieces)[x]
  {
    if pieces != [] {
      NonEmptyCounts(pieces[1..], x);
      assert pieces == [pieces[0]] + pieces[1..];
    }
  }

  // ---------------------------------------------------------------- TrimEnd / AppendLine

  /** The characters of `s`, as `s.ToCharArray()` passed to `TrimEnd`. */
  function CharSet(s: string): set<char>
  {
    set c | c in s
  }

  /** `s.TrimEnd(chars)`: `s` without its longest suffix made only of characters in `chars`. */
  function TrimEnd(s: string, chars: set<char>): (r: string)
    ensures r <= s
    ensures r == "" || r[|r| - 1] !in chars
    ensures forall k :: |r| <= k < |s| ==> s[k] in chars
  {
    if s == [] || s[|s| - 1] !in chars then s else TrimEnd(s[..|s| - 1], chars)
  }

  /** Trimming never removes a character that is not in `chars`, nor anything before it. */
  lemma TrimEndKeeps(s: string, chars: set<char>, i: int)
    requires 0 <= i < |s| && s[i] !in chars
    ensures s[..i + 1] <= TrimEnd(s, chars)
  {
  }

  /** Characters that are all in `chars`, appended at the end, are exactly what trimming removes. */
  lemma {:induction false} TrimEndSuffix(s: string, t: string, chars: set<char>)
    requires forall k :: 0 <= k < |t| ==> t[k] in chars
    ensures TrimEnd(s + t, chars) == TrimEnd(s, chars)
  {
    if t != [] {
      assert (s + t)[..|s + t| - 1] == s + t[..|t| - 1];
      TrimEndSuffix(s, t[..|t| - 1], chars);
    } else {
      assert s + t == s;
    }
  }

  /** The text a StringBuilder holds after `AppendLine(line)` for each line in turn. */
  function AppendLines(lines: seq<string>, nl: string): string
  {
    if lines == [] then "" else lines[0] + nl + AppendLines(lines[1..], nl)
  }

  /** One more `AppendLine`. */
  lemma {:induction false} AppendLinesSnoc(lines: seq<string>, line: string, nl: string)
    ensures AppendLines(lines + [line], nl) == AppendLines(lines, nl) + line + nl
  {
    if lines == [] {
      assert [] + [line] == [line];
    } else {
      assert (lines + [line])[1..] == lines[1..] + [line];
      AppendLinesSnoc(lines[1..], line, nl);
    }
  }

  /** A line that is emitted only when its condition holds. */
  function When(c: bool, line: string): seq<string>
  {
    if c then [line] else []
  }

  /** `if (c) sb.AppendLine(line)`, with the lines appended so far kept alongside. */
  method AppendLineWhen(sb: string, ghost lines: seq<string>, c: bool, line: string, nl: string)
    returns (r: string, ghost next: seq<string>)
    requires sb == AppendLines(lines, nl)
    ensures next == lines + When(c, line)
    ensures r == AppendLines(next, nl)
  {
    r, next := sb, lines;
    if c {
      AppendLinesSnoc(lines, line, nl);
      r, next := sb + line + nl, lines + [line];
    }
  }

  /** What the part modules' `GetInfo` return: the builder's text, `TrimEnd` of the newline's characters. */
  function InfoText(lines: seq<string>, nl: string): string
  {
    TrimEnd(AppendLines(lines, nl), CharSet(nl))
  }

  lemma {:induction false} AppendLinesIsJoin(lines: seq<string>, nl: string)
    requires |lines| >= 1
    ensures AppendLines(lines, nl) == Join(lines, nl) + nl
  {
    if |lines| == 1 {
      assert lines[1..] == [];
    } else {
      AppendLinesIsJoin(lines[1..], nl);
    }
  }

  lemma AppendLinesPrefix(lines: seq<string>, nl: string)
    requires |lines| >= 1
    ensures lines[0] <= AppendLines(lines, nl)
  {
  }

  /**
   * When the last line does not end in a newline character, the info text is
   * the lines joined by the newline, with no newline at either end.
   */
  lemma InfoTextIsJoin(lines: seq<string>, nl: string)
    requires |lines| >= 1
    requires var last := lines[|lines| - 1]; last != "" && last[|last| - 1] !in CharSet(nl)
    ensures InfoText(lines, nl) == Join(lines, nl)
  {
    AppendLinesIsJoin(lines, nl);
    forall k | 0 <= k < |nl| ensures nl[k] in CharSet(nl) {
      assert nl[k] in nl;
    }
    TrimEndSuffix(Join(lines, nl), nl, CharSet(nl));
    JoinEndsWithLast(lines, nl);
  }

  lemma {:induction false} JoinEndsWithLast(lines: seq<string>, nl: string)
    requires |lines| >= 1 && lines[|lines| - 1] != ""
    ensures var j := Join(lines, nl); var last := lines[|lines| - 1];
      |j| >= |last| && j[|j| - 1] == last[|last| - 1]
  {
    if |lines| > 1 {
      JoinEndsWithLast(lines[1..], nl);
    }
  }

  /** The first line, when its last character is not a newline character, starts the info text. */
  lemma InfoTextStartsWithFirstLine(lines: seq<string>, nl: string)
    requires |lines| >= 1 && lines[0] != "" && lines[0][|lines[0]| - 1] !in CharSet(nl)
    ensures lines[0] <= InfoText(lines, nl)
  {
    var s := AppendLines(lines, nl);
    AppendLinesPrefix(lines, nl);
    var i := |lines[0]| - 1;
    assert s[i] == lines[0][i];
    TrimEndKeeps(s, CharSet(nl), i);
    assert s[..i + 1] == lines[0];
  }

  // ---------------------------------------------------------------- {0:D}

  function DigitChar(d: nat): (c: char)
    requires d < 10
    ensures '0' <= c <= '9'
    ensures c as int == '0' as int + d
  {
    (d + '0' as int) as char
  }

  /** The decimal digits of `n`, most significant first, without leading zeros. */
  function NatToDecimal(n: nat): (s: string)
    ensures |s| >= 1
    ensures forall k :: 0 <= k < |s| ==> '0' <= s[k] <= '9'
    ensures |s| > 1 ==> s[0] != '0'
  {
    if n < 10 then [DigitChar(n)] else NatToDecimal(n / 10) + [DigitChar(n % 10)]
  }

  /** The number a string of decimal digits denotes. */
  function DecimalValue(s: string): nat
    requires forall k :: 0 <= k < |s| ==> '0' <= s[k] <= '9'
  {
    if s == [] then 0 else 10 * DecimalValue(s[..|s| - 1]) + (s[|s| - 1] as int - '0' as int)
  }

  /** Reading the digits back gives the number they were written from. */
  lemma {:induction false} NatToDecimalValue(n: nat)
    ensures DecimalValue(NatToDecimal(n)) == n
  {
    var s := NatToDecimal(n);
    if n >= 10 {
      NatToDecimalValue(n / 10);
      assert s[..|s| - 1] == NatToDecimal(n / 10);
    }
  }

  /** Different numbers are written differently. */
  lemma NatToDecimalInjective(m: nat, n: nat)
    requires NatToDecimal(m) == NatToDecimal(n)
    ensures m == n
  {
    NatToDecimalValue(m);
    NatToDecimalValue(n);
  }

  /** `String.Format("{0:D}", i)`: a minus sign for negative values, then the decimal digits. */
  function IntToDecimal(i: int): (s: string)
    ensures |s| >= 1
    ensures s[0] == '-' <==> i < 0
    ensures i >= 0 ==> s == NatToDecimal(i)
    ensures i < 0 ==> s[1..] == NatToDecimal(-i)
  {
    if i < 0 then "-" + NatToDecimal(-i) else NatToDecimal(i)
  }

  /** Different integers are written differently. */
  lemma IntToDecimalInjective(i: int, j: int)
    requires IntToDecimal(i) == IntToDecimal(j)
    ensures i == j
  {
    if i < 0 {
      NatToDecimalInjective(-i, -j);
    } else {
      NatToDecimalInjective(i, j);
    }
  }

  // ---------------------------------------------------------------- ordinal order

  /** Lexicographic order on strings by character code. */
  predicate Less(a: string, b: string)
  {
    if a == [] then b != []
    else if b == [] then false
    else if a[0] != b[0] then a[0] < b[0]
    else Less(a[1..], b[1..])
  }

  lemma {:induction false} LessIrreflexive(a: string)
    ensures !Less(a, a)
  {
    if a != [] {
      LessIrreflexive(a[1..]);
    }
  }

  lemma {:induction false} LessTransitive(a: string, b: string, c: string)
    requires Less(a, b) && Less(b, c)
    ensures Less(a, c)
  {
    if a != [] && b != [] && c != [] && a[0] == b[0] && b[0] == c[0] {
      LessTransitive(a[1..], b[1..], c[1..]);
    }
  }

  lemma {:induction false} LessTotal(a: string, b: string)
    requires a != b
    ensures Less(a, b) || Less(b, a)
  {
    if a != [] && b != [] && a[0] == b[0] {
      assert a == [a[0]] + a[1..] && b == [b[0]] + b[1..];
      LessTotal(a[1..], b[1..]);
    }
  }

  predicate StrictlyAscending(s: seq<string>)
  {
    forall i, j :: 0 <= i < j < |s| ==> Less(s[i], s[j])
  }

  /** `x` placed into an ascending sequence before the first element above it. */
  function InsertSorted(s: seq<string>, x: string): (r: seq<string>)
    ensures multiset(r) == multiset(s) + multiset{x}
    ensures |r| == |s| + 1
  {
    if s == [] then [x]
    else if Less(x, s[0]) then [x] + s
    else
      assert s == [s[0]] + s[1..];
      [s[0]] + InsertSorted(s[1..], x)
  }

  lemma InsertSortedMembers(s: seq<string>, x: string)
    ensures forall y :: y in InsertSorted(s, x) <==> y in s || y == x
  {
  }

  lemma {:induction false} InsertSortedAscending(s: seq<string>, x: string)
    requires StrictlyAscending(s) && x !in s
    ensures StrictlyAscending(InsertSorted(s, x))
  {
    if s == [] {
    } else if Less(x, s[0]) {
      var r := [x] + s;
      forall i, j | 0 <= i < j < |r| ensures Less(r[i], r[j]) {
        if i == 0 && j > 1 {
          LessTransitive(x, s[0], s[j - 1]);
        }
      }
    } else {
      LessTotal(x, s[0]);
      InsertSortedAscending(s[1..], x);
      var t := InsertSorted(s[1..], x);
      var r := [s[0]] + t;
      forall j | 0 <= j < |t| ensures Less(s[0], t[j]) {
        assert t[j] in multiset(t);
        if t[j] != x {
          assert t[j] in multiset(s[1..]);
          assert t[j] in s[1..];
          var m :| 0 <= m < |s[1..]| && s[1..][m] == t[j];
          assert s[m + 1] == t[j];
        }
      }
      assert forall i, j :: 0 <= i < j < |r| ==> Less(r[i], r[j]) by {
        forall i, j | 0 <= i < j < |r| ensures Less(r[i], r[j]) {
          if i == 0 {
            assert r[j] == t[j - 1];
          } else {
            assert r[i] == t[i - 1] && r[j] == t[j - 1];
          }
        }
      }
    }
  }
}
