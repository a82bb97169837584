/** String helpers shared by the storefront model: ASCII case mapping,
    substring search, whitespace trimming, splitting on a separator and
    decimal rendering of natural numbers. Strings are `seq<char>`; only the
    ASCII letters take part in case mapping. */
module Text {

  // ---------------------------------------------------------------------
  // Case mapping

  predicate IsUpper(c: char) { 'A' <= c <= 'Z' }
  predicate IsLower(c: char) { 'a' <= c <= 'z' }

  function LowerChar(c: char): (r: char)
    ensures IsUpper(c) ==> IsLower(r)
    ensures !IsUpper(c) ==> r == c
  {
    if IsUpper(c) then (c as int + 32) as char else c
  }

  function UpperChar(c: char): (r: char)
    ensures IsLower(c) ==> IsUpper(r)
    ensures !IsLower(c) ==> r == c
  {
    if IsLower(c) then (c as int - 32) as char else c
  }

  /** `String.prototype.toLowerCase`, restricted to ASCII letters. */
  function ToLower(s: string): (r: string)
    ensures |r| == |s|
    ensures forall i :: 0 <= i < |s| ==> r[i] == LowerChar(s[i])
  {
    if s == [] then [] else [LowerChar(s[0])] + ToLower(s[1..])
  }

  /** Lower-casing twice is lower-casing once. */
  lemma ToLowerIdempotent(s: string)
    ensures ToLower(ToLower(s)) == ToLower(s)
  {
    var once := ToLower(s);
    forall i | 0 <= i < |s| ensures ToLower(once)[i] == once[i] {
      assert !IsUpper(once[i]);
    }
  }

  // ---------------------------------------------------------------------
  // Substring search (`String.prototype.includes`)

  /** `s` holds `q` as a contiguous piece starting at index `i`. */
  ghost predicate OccursAt(s: string, q: string, i: int) {
    0 <= i && i + |q| <= |s| && s[i..i + |q|] == q
  }

  /** `q` occurs somewhere in `s`. */
  ghost predicate Occurs(s: string, q: string) {
    exists i :: OccursAt(s, q, i)
  }

  function Includes(s: string, q: string): (r: bool)
    decreases |s|
  {
    if |q| > |s| then false
    else if s[..|q|] == q then true
    else Includes(s[1..], q)
  }

  /** `Includes` holds exactly when `q` occurs somewhere in `s`. */
  lemma {:induction false} IncludesIff(s: string, q: string)
    ensures Includes(s, q) <==> Occurs(s, q)
    decreases |s|
  {
    if |q| > |s| {
      assert forall i :: !OccursAt(s, q, i);
    } else if s[..|q|] == q {
      assert OccursAt(s, q, 0);
    } else {
      IncludesIff(s[1..], q);
      OccursInTail(s, q);
    }
  }

  /** When `q` is not at the front of `s`, it occurs in `s` exactly when it
      occurs in the tail. */
  lemma OccursInTail(s: string, q: string)
    requires |q| <= |s| && s[..|q|] != q
    ensures Occurs(s, q) <==> Occurs(s[1..], q)
  {
    if Occurs(s[1..], q) {
      var i :| OccursAt(s[1..], q, i);
      assert s[1..][i..i + |q|] == s[i + 1..i + 1 + |q|];
      assert OccursAt(s, q, i + 1);
    }
    if Occurs(s, q) {
      var i :| OccursAt(s, q, i);
      assert i != 0 by {
        assert s[0..|q|] == s[..|q|];
      }
      assert s[1..][i - 1..i - 1 + |q|] == s[i..i + |q|];
      assert OccursAt(s[1..], q, i - 1);
    }
  }

  /** The empty query is found in every string. */
  lemma {:induction false} IncludesEmpty(s: string)
    ensures Includes(s, "")
  {
    assert s[..0] == "";
  }

  // ---------------------------------------------------------------------
  // Whitespace trimming (`String.prototype.trim`)

  predicate IsSpace(c: char) {
    c == ' ' || c == '\t' || c == '\n' || c == '\r' || c == 11 as char || c == 12 as char
  }

  function TrimStart(s: string): (r: string)
    ensures |r| <= |s| && r == s[|s| - |r|..]
    ensures r == [] || !IsSpace(r[0])
  {
    if s != [] && IsSpace(s[0]) then TrimStart(s[1..]) else s
  }

  /** What `TrimStart` drops is white space. */
  lemma {:induction false} TrimStartDropsSpaces(s: string)
    ensures forall i :: 0 <= i < |s| - |TrimStart(s)| ==> IsSpace(s[i])
  {
    if s != [] && IsSpace(s[0]) {
      TrimStartDropsSpaces(s[1..]);
      assert forall i :: 1 <= i < |s| ==> s[i] == s[1..][i - 1];
    }
  }

  function TrimEnd(s: string): (r: string)
    ensures |r| <= |s| && r == s[..|r|]
    ensures r == [] || !IsSpace(r[|r| - 1])
  {
    if s != [] && IsSpace(s[|s| - 1]) then TrimEnd(s[..|s| - 1]) else s
  }

  /** What `TrimEnd` drops is white space. */
  lemma {:induction false} TrimEndDropsSpaces(s: string)
    ensures forall i :: |TrimEnd(s)| <= i < |s| ==> IsSpace(s[i])
  {
    if s != [] && IsSpace(s[|s| - 1]) {
      TrimEndDropsSpaces(s[..|s| - 1]);
      assert forall i :: 0 <= i < |s| - 1 ==> s[i] == s[..|s| - 1][i];
    }
  }

  /** `trim()`: drop leading and trailing whitespace. */
  function Trim(s: string): (r: string)
  {
    TrimEnd(TrimStart(s))
  }

  /** Number of leading whitespace characters, which `Trim` drops first. */
  function LeadingSpaces(s: string): (k: nat)
    ensures k <= |s|
  {
    |s| - |TrimStart(s)|
  }

  /** What `Trim` removes is whitespace, what it keeps is the contiguous piece
      of the input after the leading whitespace, and that piece neither
      starts nor ends with whitespace. */
  lemma TrimSpec(s: string)
    ensures LeadingSpaces(s) + |Trim(s)| <= |s|
    ensures Trim(s) == s[LeadingSpaces(s)..LeadingSpaces(s) + |Trim(s)|]
    ensures forall i :: 0 <= i < LeadingSpaces(s) ==> IsSpace(s[i])
    ensures forall i :: LeadingSpaces(s) + |Trim(s)| <= i < |s| ==> IsSpace(s[i])
    ensures Trim(s) == [] || (!IsSpace(Trim(s)[0]) && !IsSpace(Trim(s)[|Trim(s)| - 1]))
  {
    var t := TrimStart(s);
    var r := TrimEnd(t);
    TrimStartDropsSpaces(s);
    TrimEndDropsSpaces(t);
    MiddlePiece(s, |s| - |t|, t, r);
  }

  /** A prefix `r` of the suffix `t` of `s` from `k` on is the piece of `s`
      from `k`, and what follows it in `t` follows it in `s`. */
  lemma MiddlePiece(s: string, k: nat, t: string, r: string)
    requires k <= |s| && t == s[k..] && |r| <= |t| && r == t[..|r|]
    requires forall i :: |r| <= i < |t| ==> IsSpace(t[i])
    ensures r == s[k..k + |r|]
    ensures forall i :: k + |r| <= i < |s| ==> IsSpace(s[i])
  {
    forall i | k + |r| <= i < |s| ensures IsSpace(s[i]) {
      assert s[i] == t[i - k];
    }
  }

  /** A string without whitespace at either end is its own trim. */
  lemma TrimIdempotent(s: string)
    ensures Trim(Trim(s)) == Trim(s)
  {
    var r := Trim(s);
    assert TrimStart(r) == r;
    assert TrimEnd(r) == r;
  }

  // ---------------------------------------------------------------------
  // Splitting on one separator character (`String.prototype.split(sep)`)
  //
  // `Count`, `Split` and `Join` are written from the end of the string: the
  // last character either closes a piece (a separator) or extends the last
  // piece. The pieces are those a left-to-right scan produces.

  function Count(s: string, c: char): (n: nat)
    ensures n <= |s|
    decreases |s|
  {
    if s == [] then 0 else Count(s[..|s| - 1], c) + (if s[|s| - 1] == c then 1 else 0)
  }

  function Split(s: string, sep: char): (r: seq<string>)
    ensures |r| >= 1
    decreases |s|
  {
    if s == [] then [""]
    else
      var init := Split(s[..|s| - 1], sep);
      if s[|s| - 1] == sep then init + [""]
      else init[..|init| - 1] + [init[|init| - 1] + [s[|s| - 1]]]
  }

  function Join(parts: seq<string>, sep: char): (s: string)
    decreases |parts|
  {
    if parts == [] then ""
    else if |parts| == 1 then parts[0]
    else Join(parts[..|parts| - 1], sep) + [sep] + parts[|parts| - 1]
  }

  function Last(parts: seq<string>): string
    requires |parts| >= 1
  {
    parts[|parts| - 1]
  }

  /** Splitting gives one more piece than there are separators. */
  lemma {:induction false} SplitLength(s: string, sep: char)
    ensures |Split(s, sep)| == Count(s, sep) + 1
    decreases |s|
  {
    if s != [] {
      SplitLength(s[..|s| - 1], sep);
    }
  }

  /** No piece of a split holds the separator. */
  lemma {:induction false} SplitPiecesFree(s: string, sep: char)
    ensures forall j :: 0 <= j < |Split(s, sep)| ==> sep !in Split(s, sep)[j]
    decreases |s|
  {
    if s != [] {
      var init := Split(s[..|s| - 1], sep);
      SplitPiecesFree(s[..|s| - 1], sep);
      var c := s[|s| - 1];
      if c != sep {
        var r := Split(s, sep);
        forall j | 0 <= j < |r| ensures sep !in r[j] {
          if j < |init| - 1 {
            assert r[j] == init[j];
          } else {
            assert r[j] == init[|init| - 1] + [c];
          }
        }
      }
    }
  }

  /** Appending an empty piece appends a separator to the join. */
  lemma JoinAppendEmpty(parts: seq<string>, sep: char)
    requires |parts| >= 1
    ensures Join(parts + [""], sep) == Join(parts, sep) + [sep]
  {
    assert (parts + [""])[..|parts|] == parts;
  }

  /** Extending the last piece extends the join. */
  lemma JoinExtendLast(parts: seq<string>, c: char, sep: char)
    requires |parts| >= 1
    ensures Join(parts[..|parts| - 1] + [parts[|parts| - 1] + [c]], sep) == Join(parts, sep) + [c]
  {
    var n := |parts|;
    var q := parts[..n - 1] + [parts[n - 1] + [c]];
    if n > 1 {
      assert q[..n - 1] == parts[..n - 1];
      assert Join(q, sep) == Join(parts[..n - 1], sep) + [sep] + (parts[n - 1] + [c]);
    }
  }

  /** Joining the pieces of a split with the separator restores the input. */
  lemma {:induction false} SplitJoin(s: string, sep: char)
    ensures Join(Split(s, sep), sep) == s
    decreases |s|
  {
    if s != [] {
      var front := s[..|s| - 1];
      SplitJoin(front, sep);
      assert s == front + [s[|s| - 1]];
      if s[|s| - 1] == sep {
        JoinAppendEmpty(Split(front, sep), sep);
      } else {
        JoinExtendLast(Split(front, sep), s[|s| - 1], sep);
      }
    }
  }

  /** The last piece is empty after a final separator and otherwise the last
      piece of the shorter string, extended by the final character. */
  lemma LastOfSplit(s: string, sep: char)
    requires s != []
    ensures s[|s| - 1] == sep ==> Last(Split(s, sep)) == ""
    ensures s[|s| - 1] != sep ==> Last(Split(s, sep)) == Last(Split(s[..|s| - 1], sep)) + [s[|s| - 1]]
  {
  }

  /** The text after the last separator, the whole string when there is
      none. */
  function LastPiece(s: string, sep: char): (l: string)
    decreases |s|
  {
    if s == [] || s[|s| - 1] == sep then "" else LastPiece(s[..|s| - 1], sep) + [s[|s| - 1]]
  }

  /** The last piece of a split is `LastPiece`. */
  lemma {:induction false} SplitLastPiece(s: string, sep: char)
    ensures Last(Split(s, sep)) == LastPiece(s, sep)
    decreases |s|
  {
    if s != [] {
      SplitLastPiece(s[..|s| - 1], sep);
      LastOfSplit(s, sep);
    }
  }

  /** The last piece is the end of the input; when the input holds the
      separator, that end follows a separator, and otherwise it is the
      whole input. With `SplitPiecesFree` it is exactly the text after the
      last separator. */
  lemma {:induction false} LastPieceIsEnd(s: string, sep: char)
    ensures |LastPiece(s, sep)| <= |s|
    ensures s[|s| - |LastPiece(s, sep)|..] == LastPiece(s, sep)
    ensures sep in s ==> |LastPiece(s, sep)| < |s| && s[|s| - |LastPiece(s, sep)| - 1] == sep
    ensures sep !in s ==> LastPiece(s, sep) == s
    decreases |s|
  {
    if s != [] && s[|s| - 1] != sep {
      LastPieceIsEnd(s[..|s| - 1], sep);
      SuffixExtends(s, sep, LastPiece(s[..|s| - 1], sep));
    }
  }

  /** An end `l` of `s` without its last character, followed by that
      character, is an end of `s`; what precedes it is unchanged. */
  lemma SuffixExtends(s: string, sep: char, l: string)
    requires s != [] && s[|s| - 1] != sep
    requires |l| <= |s| - 1 && s[..|s| - 1][|s| - 1 - |l|..] == l
    requires sep in s[..|s| - 1] ==> |l| < |s| - 1 && s[..|s| - 1][|s| - 2 - |l|] == sep
    requires sep !in s[..|s| - 1] ==> l == s[..|s| - 1]
    ensures s[|s| - |l| - 1..] == l + [s[|s| - 1]]
    ensures sep in s ==> |l| + 1 < |s| && s[|s| - |l| - 2] == sep
    ensures sep !in s ==> l + [s[|s| - 1]] == s
  {
    var front := s[..|s| - 1];
    assert s == front + [s[|s| - 1]];
    assert sep in s <==> sep in front;
  }

  /** Appending a separator and a separator-free tail makes that tail the
      last piece. */
  lemma {:induction false} SplitAfterLast(s: string, sep: char, tail: string)
    requires sep !in tail
    ensures Last(Split(s + [sep] + tail, sep)) == tail
    decreases |tail|
  {
    var t := s + [sep] + tail;
    LastOfSplit(t, sep);
    if tail != [] {
      var shorter := tail[..|tail| - 1];
      assert t[..|t| - 1] == s + [sep] + shorter;
      assert tail == shorter + [tail[|tail| - 1]];
      SplitAfterLast(s, sep, shorter);
    }
  }

  // ---------------------------------------------------------------------
  // Decimal digits

  predicate IsDigit(c: char) { '0' <= c <= '9' }

  predicate AllDigits(s: string) {
    forall i :: 0 <= i < |s| ==> IsDigit(s[i])
  }

  function DigitChar(d: nat): (c: char)
    requires d < 10
    ensures IsDigit(c)
  {
    ('0' as int + d) as char
  }

  function DigitValue(c: char): (d: nat)
    requires IsDigit(c)
    ensures d < 10 && DigitChar(d) == c
  {
    c as int - '0' as int
  }

  /** `Number.prototype.toString()` for a natural number. */
  function NatToString(n: nat): (s: string)
    ensures |s| >= 1 && AllDigits(s)
    ensures |s| > 1 ==> s[0] != '0'
  {
    if n < 10 then [DigitChar(n)] else NatToString(n / 10) + [DigitChar(n % 10)]
  }

  /** The value of a string of decimal digits. */
  function ParseDigits(s: string): (n: nat)
    requires AllDigits(s)
  {
    if s == [] then 0 else 10 * ParseDigits(s[..|s| - 1]) + DigitValue(s[|s| - 1])
  }

  lemma {:induction false} ParseNatToString(n: nat)
    ensures ParseDigits(NatToString(n)) == n
  {
    if n >= 10 {
      ParseNatToString(n / 10);
      var s := NatToString(n);
      assert s[..|s| - 1] == NatToString(n / 10);
    }
  }

  /** Number of decimal digits of `n` (at least one). */
  function DigitCount(n: nat): (k: nat)
    ensures k >= 1
  {
    if n < 10 then 1 else 1 + DigitCount(n / 10)
  }

  function Pow10(k: nat): (p: nat)
    ensures p >= 1
  {
    if k == 0 then 1 else 10 * Pow10(k - 1)
  }

  /** A number below 10^k has at most k digits. */
  lemma {:induction false} NatToStringLength(n: nat, k: nat)
    requires k >= 1 && n < Pow10(k)
    ensures |NatToString(n)| <= k
  {
    if n >= 10 {
      assert Pow10(0) == 1;
      assert n / 10 < Pow10(k - 1);
      NatToStringLength(n / 10, k - 1);
    }
  }

  /** `padStart(width, fill)`: left-pad to `width` characters; a string that
      is already long enough is returned as it is. */
  function PadStart(s: string, width: nat, fill: char): (r: string)
    ensures |r| == if |s| >= width then |s| else width
    ensures |s| >= width ==> r == s
    ensures |s| < width ==> r[width - |s|..] == s
    ensures forall i :: 0 <= i < |r| - |s| ==> r[i] == fill
  {
    if |s| >= width then s else seq(width - |s|, _ => fill) + s
  }

  /** Padding a digit string with zeros keeps it a digit string of the
      same value. */
  lemma PadZeros(s: string, width: nat)
    requires AllDigits(s)
    ensures AllDigits(PadStart(s, width, '0')) && ParseDigits(PadStart(s, width, '0')) == ParseDigits(s)
  {
    if |s| < width {
      var z := seq(width - |s|, _ => '0');
      assert PadStart(s, width, '0') == z + s;
      ParseIgnoresLeadingZeros(z, s);
    }
  }

  /** Leading zeros do not change the value of a digit string. */
  lemma {:induction false} ParseIgnoresLeadingZeros(z: string, s: string)
    requires forall i :: 0 <= i < |z| ==> z[i] == '0'
    requires AllDigits(s)
    ensures AllDigits(z + s) && ParseDigits(z + s) == ParseDigits(s)
    decreases |s|
  {
    if s == [] {
      assert z + s == z;
      ZerosParseToZero(z);
    } else {
      var zs := z + s;
      assert zs[..|zs| - 1] == z + s[..|s| - 1];
      ParseIgnoresLeadingZeros(z, s[..|s| - 1]);
    }
  }

  lemma {:induction false} ZerosParseToZero(z: string)
    requires forall i :: 0 <= i < |z| ==> z[i] == '0'
    ensures AllDigits(z) && ParseDigits(z) == 0
  {
    if z != [] {
      ZerosParseToZero(z[..|z| - 1]);
    }
  }
}
