/**
 * The few java.lang.String and java.lang.Integer operations the chat handlers
 * rely on, over strings as sequences of chars.
 *
 * String.startsWith(p) is Dafny's prefix test `p <= s`, and s.substring(i) is
 * the slice `s[i..]`, which Java refuses (it throws) when i > |s|.  What needs
 * a definition of its own is trim, split(" ") and the decimal conversions
 * Integer.parseInt and Integer.toString.
 */
module JavaText {

  datatype Option<+T> = None | Some(value: T)

  // ---------------------------------------------------------------- trim

  /** The characters String.trim removes: every char up to and including U+0020. */
  predicate IsBlank(c: char) {
    c <= ' '
  }

  predicate AllBlank(s: string) {
    forall k :: 0 <= k < |s| ==> IsBlank(s[k])
  }

  /** Neither end of s is blank: the shape of every result of trim. */
  predicate Trimmed(s: string) {
    s == [] || (!IsBlank(s[0]) && !IsBlank(s[|s| - 1]))
  }

  /** s without its leading blanks: the suffix that starts at the first non-blank char. */
  function StripLeading(s: string): (r: string)
    ensures |r| <= |s| && r == s[|s| - |r|..]
    ensures AllBlank(s[..|s| - |r|])
    ensures r == [] || !IsBlank(r[0])
    decreases |s|
  {
    if s != [] && IsBlank(s[0]) then
      var r := StripLeading(s[1..]);
      assert s[..|s| - |r|] == [s[0]] + s[1..][..|s| - 1 - |r|];
      r
    else
      s
  }

  /** s without its trailing blanks: the prefix that ends at the last non-blank char. */
  function StripTrailing(s: string): (r: string)
    ensures |r| <= |s| && r == s[..|r|]
    ensures AllBlank(s[|r|..])
    ensures r == [] || !IsBlank(r[|r| - 1])
    decreases |s|
  {
    if s != [] && IsBlank(s[|s| - 1]) then
      var r := StripTrailing(s[..|s| - 1]);
      assert s[|r|..] == s[..|s| - 1][|r|..] + [s[|s| - 1]];
      r
    else
      s
  }

  /** String.trim. */
  function Trim(s: string): (r: string)
    ensures |r| <= |s| && Trimmed(r)
    ensures Trimmed(s) ==> r == s
  {
    StripTrailing(StripLeading(s))
  }

  lemma {:induction false} StripLeadingBlanks(before: string, rest: string)
    requires AllBlank(before)
    requires rest == [] || !IsBlank(rest[0])
    ensures StripLeading(before + rest) == rest
    decreases |before|
  {
    if before == [] {
      assert before + rest == rest;
    } else {
      assert (before + rest)[1..] == before[1..] + rest;
      StripLeadingBlanks(before[1..], rest);
    }
  }

  lemma {:induction false} StripTrailingBlanks(rest: string, after: string)
    requires AllBlank(after)
    requires rest == [] || !IsBlank(rest[|rest| - 1])
    ensures StripTrailing(rest + after) == rest
    decreases |after|
  {
    if after == [] {
      assert rest + after == rest;
    } else {
      var s := rest + after;
      assert s[..|s| - 1] == rest + after[..|after| - 1];
      StripTrailingBlanks(rest, after[..|after| - 1]);
    }
  }

  /** Trim removes exactly the blanks around a trimmed core, and nothing else. */
  lemma TrimSurrounded(before: string, core: string, after: string)
    requires AllBlank(before) && AllBlank(after) && Trimmed(core)
    ensures Trim(before + core + after) == core
  {
    if core == [] {
      assert before + core + after == before + after;
      StripLeadingBlanks(before + after, []);
      assert before + after + [] == before + after;
    } else {
      assert before + core + after == before + (core + after);
      StripLeadingBlanks(before, core + after);
      StripTrailingBlanks(core, after);
    }
  }

  // ---------------------------------------------------------------- split(" ")

  /** The fields of s between single spaces, empty fields included. */
  function Pieces(s: string): (r: seq<string>)
    ensures |r| >= 1
    ensures forall i :: 0 <= i < |r| ==> ' ' !in r[i]
    decreases |s|
  {
    if s == [] then [[]]
    else
      var rest := Pieces(s[1..]);
      if s[0] == ' ' then [[]] + rest else [[s[0]] + rest[0]] + rest[1..]
  }

  /** The fields joined back with one space between each two. */
  function JoinWithSpaces(parts: seq<string>): string
    requires |parts| >= 1
    decreases |parts|
  {
    if |parts| == 1 then parts[0] else parts[0] + " " + JoinWithSpaces(parts[1..])
  }

  /** Joining the fields gives back the string they were cut from. */
  lemma {:induction false} JoinPieces(s: string)
    ensures JoinWithSpaces(Pieces(s)) == s
    decreases |s|
  {
    if s != [] {
      var rest := Pieces(s[1..]);
      JoinPieces(s[1..]);
      if s[0] == ' ' {
        assert Pieces(s) == [[]] + rest;
        assert ([[]] + rest)[1..] == rest;
        assert s == [] + " " + s[1..];
      } else if |rest| == 1 {
        assert Pieces(s) == [[s[0]] + rest[0]];
        assert s == [s[0]] + s[1..];
      } else {
        var ps := [[s[0]] + rest[0]] + rest[1..];
        assert Pieces(s) == ps;
        assert ps[1..] == rest[1..];
        assert JoinWithSpaces(rest) == rest[0] + " " + JoinWithSpaces(rest[1..]);
        assert s == [s[0]] + s[1..];
      }
    }
  }

  lemma {:induction false} PiecesOfWord(w: string)
    requires ' ' !in w
    ensures Pieces(w) == [w]
    decreases |w|
  {
    if w != [] {
      assert ' ' !in w[1..] by {
        forall k | 0 <= k < |w[1..]| ensures w[1..][k] != ' ' {
          assert w[1..][k] == w[k + 1];
        }
      }
      PiecesOfWord(w[1..]);
      assert w == [w[0]] + w[1..];
    }
  }

  lemma {:induction false} PiecesAfterWord(w: string, t: string)
    requires ' ' !in w
    ensures Pieces(w + " " + t) == [w] + Pieces(t)
    decreases |w|
  {
    var s := w + " " + t;
    if w == [] {
      assert s[0] == ' ' && s[1..] == t;
    } else {
      assert s[0] == w[0] && s[1..] == w[1..] + " " + t;
      assert ' ' !in w[1..] by {
        forall k | 0 <= k < |w[1..]| ensures w[1..][k] != ' ' {
          assert w[1..][k] == w[k + 1];
        }
      }
      PiecesAfterWord(w[1..], t);
      assert w == [w[0]] + w[1..];
    }
  }

  /** Cutting fields that hold no space, once joined, gives back exactly those fields. */
  lemma {:induction false} PiecesOfJoin(parts: seq<string>)
    requires |parts| >= 1
    requires forall i :: 0 <= i < |parts| ==> ' ' !in parts[i]
    ensures Pieces(JoinWithSpaces(parts)) == parts
    decreases |parts|
  {
    if |parts| == 1 {
      PiecesOfWord(parts[0]);
    } else {
      PiecesAfterWord(parts[0], JoinWithSpaces(parts[1..]));
      PiecesOfJoin(parts[1..]);
      assert parts == [parts[0]] + parts[1..];
    }
  }

  /** parts without its trailing empty fields. */
  function DropTrailingEmpty(parts: seq<string>): (r: seq<string>)
    ensures r <= parts
    ensures r == [] || r[|r| - 1] != []
    ensures forall k :: |r| <= k < |parts| ==> parts[k] == []
    decreases |parts|
  {
    if parts != [] && parts[|parts| - 1] == [] then DropTrailingEmpty(parts[..|parts| - 1]) else parts
  }

  /**
   * String.split(" ") with Java's default limit 0: the fields between single
   * spaces with the trailing empty ones removed, or the whole string when it
   * holds no space at all (so "".split(" ") is [""], " ".split(" ") is []).
   */
  function Split(s: string): (r: seq<string>)
    ensures forall i :: 0 <= i < |r| ==> ' ' !in r[i]
  {
    if ' ' !in s then [s] else DropTrailingEmpty(Pieces(s))
  }

  /** Splitting space-free fields joined by single spaces, the last one non-empty, gives them back. */
  lemma SplitOfJoin(parts: seq<string>)
    requires |parts| >= 1 && parts[|parts| - 1] != []
    requires forall i :: 0 <= i < |parts| ==> ' ' !in parts[i]
    ensures Split(JoinWithSpaces(parts)) == parts
  {
    if |parts| > 1 {
      var s := JoinWithSpaces(parts);
      assert s == parts[0] + " " + JoinWithSpaces(parts[1..]);
      assert s[|parts[0]|] == ' ';
      PiecesOfJoin(parts);
    }
  }

  /** A single trailing space after a word yields no second field. */
  lemma SplitWordAndSpace(w: string)
    requires w != [] && ' ' !in w
    ensures Split(w + " ") == [w]
  {
    var s := w + " ";
    assert s == JoinWithSpaces([w, []]);
    assert s[|w|] == ' ';
    PiecesOfJoin([w, []]);
    assert [w, []][..1] == [w];
  }

  /** k spaces. */
  function Spaces(k: nat): string {
    seq(k, _ => ' ')
  }

  /** k empty fields. */
  function EmptyFields(k: nat): seq<string> {
    seq(k, _ => [])
  }

  /** Joining one more field adds a space and that field. */
  lemma {:induction false} JoinThenField(parts: seq<string>, w: string)
    requires |parts| >= 1
    ensures JoinWithSpaces(parts + [w]) == JoinWithSpaces(parts) + " " + w
    decreases |parts|
  {
    if |parts| == 1 {
      assert (parts + [w])[1..] == [w];
    } else {
      assert (parts + [w])[1..] == parts[1..] + [w];
      JoinThenField(parts[1..], w);
    }
  }

  /** Joining k more empty fields adds k spaces. */
  lemma {:induction false} JoinThenEmptyFields(parts: seq<string>, k: nat)
    requires |parts| >= 1
    ensures JoinWithSpaces(parts + EmptyFields(k)) == JoinWithSpaces(parts) + Spaces(k)
    decreases k
  {
    if k == 0 {
      assert parts + EmptyFields(0) == parts;
      assert JoinWithSpaces(parts) + Spaces(0) == JoinWithSpaces(parts);
    } else {
      assert parts + EmptyFields(k) == (parts + EmptyFields(k - 1)) + [[]];
      JoinThenEmptyFields(parts, k - 1);
      JoinThenField(parts + EmptyFields(k - 1), []);
      assert Spaces(k) == Spaces(k - 1) + " ";
    }
  }

  /** Dropping trailing empty fields takes off exactly the empty fields appended. */
  lemma {:induction false} DropEmptyFields(parts: seq<string>, k: nat)
    requires |parts| >= 1 && parts[|parts| - 1] != []
    ensures DropTrailingEmpty(parts + EmptyFields(k)) == parts
    decreases k
  {
    var s := parts + EmptyFields(k);
    if k == 0 {
      assert s == parts;
    } else {
      assert s[|s| - 1] == [];
      assert s[..|s| - 1] == parts + EmptyFields(k - 1);
      DropEmptyFields(parts, k - 1);
    }
  }

  /**
   * Any number of spaces after the last field adds no field, because
   * split(" ") drops trailing empty strings: "#setport 80   " has fields
   * "#setport" and "80".
   */
  lemma SplitOfJoinAndSpaces(parts: seq<string>, k: nat)
    requires |parts| >= 1 && parts[|parts| - 1] != []
    requires forall i :: 0 <= i < |parts| ==> ' ' !in parts[i]
    ensures Split(JoinWithSpaces(parts) + Spaces(k)) == parts
  {
    if k == 0 {
      assert JoinWithSpaces(parts) + Spaces(0) == JoinWithSpaces(parts);
      SplitOfJoin(parts);
    } else {
      var all := parts + EmptyFields(k);
      assert forall i :: 0 <= i < |all| ==> ' ' !in all[i] by {
        forall i | 0 <= i < |all| ensures ' ' !in all[i] {
          if i >= |parts| { assert all[i] == []; }
        }
      }
      JoinThenEmptyFields(parts, k);
      PiecesOfJoin(all);
      var s := JoinWithSpaces(parts) + Spaces(k);
      assert s[|s| - 1] == ' ';
      DropEmptyFields(parts, k);
    }
  }

  // ---------------------------------------------------------------- Integer.parseInt / toString

  const IntMin: int := -0x8000_0000
  const IntMax: int := 0x7fff_ffff

  /** The range of a Java int. */
  predicate InInt32(n: int) {
    IntMin <= n <= IntMax
  }

  predicate IsDigit(c: char) {
    '0' <= c <= '9'
  }

  predicate AllDigits(s: string) {
    forall k :: 0 <= k < |s| ==> IsDigit(s[k])
  }

  /** The value of a string of decimal digits, most significant first. */
  function DigitsValue(s: string): nat
    requires AllDigits(s)
    decreases |s|
  {
    if s == [] then 0 else DigitsValue(s[..|s| - 1]) * 10 + (s[|s| - 1] as int - '0' as int)
  }

  function InRange(v: int): (r: Option<int>)
    ensures r.Some? <==> InInt32(v)
  {
    if InInt32(v) then Some(v) else None
  }

  /**
   * Integer.parseInt(s) in radix 10: an optional '-' or '+' and then one or
   * more digits, whose value must fit a Java int; None where Java throws
   * NumberFormatException.
   */
  function ParseInt(s: string): (r: Option<int>)
    ensures r.Some? ==> InInt32(r.value)
    ensures r.Some? ==> |s| >= 1 && (AllDigits(s) || (|s| >= 2 && (s[0] == '-' || s[0] == '+') && AllDigits(s[1..])))
    // and every such string parses to its value exactly when that value is a Java int
    ensures |s| >= 1 && AllDigits(s) ==> r == InRange(DigitsValue(s))
    ensures |s| >= 2 && s[0] == '+' && AllDigits(s[1..]) ==> r == InRange(DigitsValue(s[1..]))
    ensures |s| >= 2 && s[0] == '-' && AllDigits(s[1..]) ==> r == InRange(-(DigitsValue(s[1..]) as int))
  {
    if s == [] then None
    else if s[0] == '-' || s[0] == '+' then
      if |s| == 1 || !AllDigits(s[1..]) then None
      else if s[0] == '-' then InRange(-(DigitsValue(s[1..]) as int))
      else InRange(DigitsValue(s[1..]))
    else if AllDigits(s) then InRange(DigitsValue(s))
    else None
  }

  function DigitChar(d: nat): (c: char)
    requires d < 10
    ensures IsDigit(c)
  {
    ('0' as int + d) as char
  }

  /** The decimal digits of n, without leading zeros. */
  function NatToDigits(n: nat): (r: string)
    ensures |r| >= 1 && AllDigits(r)
    ensures r[0] == '0' ==> n == 0
    decreases n
  {
    if n < 10 then [DigitChar(n)] else NatToDigits(n / 10) + [DigitChar(n % 10)]
  }

  /** Integer.toString(n), the text String.valueOf and string concatenation give an int. */
  function IntToString(n: int): (r: string)
    ensures |r| >= 1 && ' ' !in r && Trimmed(r)
    ensures r[0] == '-' <==> n < 0
  {
    if n < 0 then "-" + NatToDigits(-n) else NatToDigits(n)
  }

  lemma {:induction false} DigitsValueOfNatToDigits(n: nat)
    ensures DigitsValue(NatToDigits(n)) == n
    decreases n
  {
    if n >= 10 {
      var r := NatToDigits(n);
      assert r == NatToDigits(n / 10) + [DigitChar(n % 10)];
      assert r[..|r| - 1] == NatToDigits(n / 10);
      DigitsValueOfNatToDigits(n / 10);
    }
  }

  /** A run of zeros, however long, is worth 0. */
  lemma {:induction false} ZerosValue(z: string)
    requires forall k :: 0 <= k < |z| ==> z[k] == '0'
    ensures AllDigits(z) && DigitsValue(z) == 0
    decreases |z|
  {
    if z != [] {
      ZerosValue(z[..|z| - 1]);
    }
  }

  /** Leading zeros do not change the value of a string of digits. */
  lemma {:induction false} LeadingZerosValue(z: string, d: string)
    requires forall k :: 0 <= k < |z| ==> z[k] == '0'
    requires AllDigits(d)
    ensures AllDigits(z + d) && DigitsValue(z + d) == DigitsValue(d)
    decreases |d|
  {
    var s := z + d;
    assert AllDigits(s) by {
      forall k | 0 <= k < |s| ensures IsDigit(s[k]) {
        if k < |z| { assert s[k] == z[k]; } else { assert s[k] == d[k - |z|]; }
      }
    }
    if d == [] {
      assert s == z;
      ZerosValue(z);
    } else {
      assert s[..|s| - 1] == z + d[..|d| - 1];
      assert s[|s| - 1] == d[|d| - 1];
      LeadingZerosValue(z, d[..|d| - 1]);
    }
  }

  /**
   * parseInt skips leading zeros and a leading '+', and negates after a '-':
   * "0080", "+80" and "+0080" are 80, and "-0" is 0.
   */
  lemma {:induction false} ParseIntSignAndZeros(z: string, d: string)
    requires forall k :: 0 <= k < |z| ==> z[k] == '0'
    requires AllDigits(d) && |z + d| >= 1
    ensures ParseInt(z + d) == InRange(DigitsValue(d))
    ensures ParseInt("+" + z + d) == InRange(DigitsValue(d))
    ensures ParseInt("-" + z + d) == InRange(-(DigitsValue(d) as int))
  {
    LeadingZerosValue(z, d);
    ParseIntSigned('+', z + d);
    ParseIntSigned('-', z + d);
    assert "+" + z + d == ['+'] + (z + d);
    assert "-" + z + d == ['-'] + (z + d);
  }

  /** Leading zeros are skipped: "0080" is 80. */
  lemma ParseIntLeadingZerosExample()
    ensures ParseInt("0080") == Some(80)
  {
    ParseIntSignAndZeros("00", "80");
    assert "0080" == "00" + "80";
  }

  /** A leading '+' is skipped, and "-0" is 0. */
  lemma ParseIntSignExamples()
    ensures ParseInt("+80") == Some(80)
    ensures ParseInt("-0") == Some(0)
  {
    ParseIntSignAndZeros("", "80");
    assert "+80" == "+" + "" + "80";
    ParseIntSignAndZeros("0", "");
    assert "-0" == "-" + "0" + "";
  }

  /** The sign char and the digits after it, as parseInt sees them. */
  lemma ParseIntSigned(c: char, t: string)
    requires (c == '+' || c == '-') && |t| >= 1 && AllDigits(t)
    ensures ParseInt([c] + t) == if c == '-' then InRange(-(DigitsValue(t) as int)) else InRange(DigitsValue(t))
  {
    var s := [c] + t;
    assert s[0] == c && s[1..] == t;
  }

  /** parseInt reads back what toString writes, and rejects it exactly when n is no Java int. */
  lemma ParseIntOfIntToString(n: int)
    ensures ParseInt(IntToString(n)) == if InInt32(n) then Some(n) else None
  {
    var s := IntToString(n);
    if n < 0 {
      assert s[1..] == NatToDigits(-n);
      DigitsValueOfNatToDigits(-n);
    } else {
      DigitsValueOfNatToDigits(n);
    }
  }
}
