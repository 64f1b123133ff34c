/** The string operations the contracts lean on. */
module Texts {

  // ---- decimal text ---------------------------------------------------------------

  function Digit(d: nat): char
    requires d < 10
  {
    '0' + d as char
  }

  predicate IsDigit(ch: char) {
    '0' <= ch <= '9'
  }

  /** `str(n)`. */
  function Decimal(n: nat): (s: string)
    ensures |s| > 0
    ensures forall x :: 0 <= x < |s| ==> IsDigit(s[x])
  {
    if n < 10 then [Digit(n)] else Decimal(n / 10) + [Digit(n % 10)]
  }

  predicate AllDigits(s: string) {
    forall x :: 0 <= x < |s| ==> IsDigit(s[x])
  }

  /** The number a digit string denotes, leading zeros allowed. */
  function Number(s: string): nat
    requires AllDigits(s)
  {
    if s == "" then 0 else 10 * Number(s[..|s| - 1]) + (s[|s| - 1] - '0') as nat
  }

  lemma {:induction false} NumberOfDecimal(n: nat)
    ensures Number(Decimal(n)) == n
  {
    if n >= 10 {
      NumberOfDecimal(n / 10);
      var front, last := Decimal(n / 10), [Digit(n % 10)];
      assert (front + last)[..|front + last| - 1] == front;
    }
  }

  function Zeros(n: nat): (s: string)
    ensures |s| == n && forall x :: 0 <= x < n ==> s[x] == '0'
  {
    if n == 0 then "" else "0" + Zeros(n - 1)
  }

  /** `f"{n:03d}"`. */
  function Padded(n: nat): (s: string)
    ensures AllDigits(s) && |s| >= 3
  {
    var s := Decimal(n);
    if |s| < 3 then Zeros(3 - |s|) + s else s
  }

  lemma {:induction false} LeadingZeros(n: nat, s: string)
    requires AllDigits(s)
    ensures AllDigits(Zeros(n) + s) && Number(Zeros(n) + s) == Number(s)
    decreases |s|
  {
    var all := Zeros(n) + s;
    if s == "" {
      assert all == Zeros(n);
      ZerosAreZero(n);
    } else {
      assert all[..|all| - 1] == Zeros(n) + s[..|s| - 1];
      LeadingZeros(n, s[..|s| - 1]);
    }
  }

  lemma {:induction false} ZerosAreZero(n: nat)
    ensures Number(Zeros(n)) == 0
  {
    if n > 0 {
      assert Zeros(n)[..n - 1] == Zeros(n - 1);
      ZerosAreZero(n - 1);
    }
  }

  /** Padding never confuses two numbers. */
  lemma NumberOfPadded(n: nat)
    ensures Number(Padded(n)) == n
  {
    NumberOfDecimal(n);
    LeadingZeros(if |Decimal(n)| < 3 then 3 - |Decimal(n)| else 0, Decimal(n));
  }

  // ---- code-point order -------------------------------------------------------------

  predicate Less(a: string, b: string) {
    b != "" && (a == "" || a[0] < b[0] || (a[0] == b[0] && Less(a[1..], b[1..])))
  }

  lemma {:induction false} LessIsStrict(a: string, b: string)
    ensures !(Less(a, b) && Less(b, a))
    ensures Less(a, b) ==> a != b
  {
    if a != "" && b != "" {
      LessIsStrict(a[1..], b[1..]);
    }
  }

  lemma {:induction false} LessIsTotal(a: string, b: string)
    ensures Less(a, b) || a == b || Less(b, a)
  {
    if a != "" && b != "" && a[0] == b[0] {
      LessIsTotal(a[1..], b[1..]);
      assert a == [a[0]] + a[1..] && b == [b[0]] + b[1..];
    }
  }

  lemma {:induction false} LessIsTransitive(a: string, b: string, c: string)
    requires Less(a, b) && Less(b, c)
    ensures Less(a, c)
  {
    if a != "" && a[0] == b[0] == c[0] {
      LessIsTransitive(a[1..], b[1..], c[1..]);
    }
  }

  // ---- sorted sets --------------------------------------------------------------------

  predicate StrictlySorted(s: seq<string>) {
    forall x, y :: 0 <= x < y < |s| ==> Less(s[x], s[y])
  }

  /** `s` with `w` in its place, unless it is there already. */
  function Insert(s: seq<string>, w: string): seq<string> {
    if |s| == 0 then [w]
    else if w == s[0] then s
    else if Less(w, s[0]) then [w] + s
    else [s[0]] + Insert(s[1..], w)
  }

  /** `sorted(set(words))`. */
  function SortedSet(words: seq<string>): seq<string> {
    if |words| == 0 then [] else Insert(SortedSet(words[..|words| - 1]), words[|words| - 1])
  }

  lemma {:induction false} InsertKeepsOrder(s: seq<string>, w: string)
    requires StrictlySorted(s)
    ensures StrictlySorted(Insert(s, w))
    ensures forall u :: u in Insert(s, w) <==> u in s || u == w
  {
    if |s| > 0 && w != s[0] {
      LessIsTotal(w, s[0]);
      if Less(w, s[0]) {
        forall x | 0 <= x < |s| ensures Less(w, s[x]) {
          if x > 0 { LessIsTransitive(w, s[0], s[x]); }
        }
      } else {
        InsertKeepsOrder(s[1..], w);
        var rest := Insert(s[1..], w);
        forall x | 0 <= x < |rest| ensures Less(s[0], rest[x]) {
          assert rest[x] in s[1..] || rest[x] == w;
        }
      }
      assert forall u :: u in s <==> u == s[0] || u in s[1..];
    }
  }

  /** The result is strictly sorted, so without repeats, and holds exactly the words given. */
  lemma {:induction false} SortedSetIs(words: seq<string>)
    ensures StrictlySorted(SortedSet(words))
    ensures forall u :: u in SortedSet(words) <==> u in words
  {
    if |words| > 0 {
      var n := |words| - 1;
      SortedSetIs(words[..n]);
      InsertKeepsOrder(SortedSet(words[..n]), words[n]);
      assert forall u :: u in words <==> u in words[..n] || u == words[n];
    }
  }

  /** A strictly sorted list is determined by its elements. */
  lemma {:induction false} SortedIsUnique(a: seq<string>, b: seq<string>)
    requires StrictlySorted(a) && StrictlySorted(b)
    requires forall u :: u in a <==> u in b
    ensures a == b
    decreases |a|
  {
    assert (|a| > 0 ==> a[0] in b) && (|b| > 0 ==> b[0] in b);
    if |a| > 0 {
      assert b[0] in a;
      var x :| 0 <= x < |b| && b[x] == a[0];
      var y :| 0 <= y < |a| && a[y] == b[0];
      if x > 0 && y > 0 { LessIsStrict(a[0], b[0]); }
      LessIsStrict(a[0], a[0]);
      assert a[0] == b[0];
      forall u ensures u in a[1..] <==> u in b[1..] {
        if u == a[0] {
          RestLacksHead(a);
          RestLacksHead(b);
        } else {
          assert u in a <==> u in a[1..];
          assert u in b <==> u in b[1..];
        }
      }
      SortedIsUnique(a[1..], b[1..]);
      assert a == [a[0]] + a[1..] && b == [b[0]] + b[1..];
    }
  }

  lemma RestLacksHead(s: seq<string>)
    requires |s| > 0 && StrictlySorted(s)
    ensures s[0] !in s[1..]
  {
    LessIsStrict(s[0], s[0]);
    assert forall x :: 0 <= x < |s| - 1 ==> Less(s[0], s[1..][x]);
  }

  /** Order and repetition of the input do not matter. */
  lemma SortedSetIgnoresOrder(a: seq<string>, b: seq<string>)
    requires forall u :: u in a <==> u in b
    ensures SortedSet(a) == SortedSet(b)
  {
    SortedSetIs(a);
    SortedSetIs(b);
    SortedIsUnique(SortedSet(a), SortedSet(b));
  }

  // ---- joining ----------------------------------------------------------------------

  /** `sep.join(parts)` for a one-character separator. */
  function Join(parts: seq<string>, sep: char): string {
    if |parts| == 0 then ""
    else if |parts| == 1 then parts[0]
    else parts[0] + [sep] + Join(parts[1..], sep)
  }

  /** The text before the first `sep`: `s.split(sep)[0]`. */
  function Before(s: string, sep: char): string {
    if s == "" || s[0] == sep then "" else [s[0]] + Before(s[1..], sep)
  }

  lemma {:induction false} BeforeOfHead(head: string, sep: char, rest: string)
    requires sep !in head
    ensures Before(head, sep) == head
    ensures Before(head + [sep] + rest, sep) == head
  {
    if head != "" {
      BeforeOfHead(head[1..], sep, rest);
      assert (head + [sep] + rest)[1..] == head[1..] + [sep] + rest;
      assert head[0] in head;
    }
  }

  /** `s.split(sep)`. */
  function Split(s: string, sep: char): (parts: seq<string>)
    ensures |parts| > 0
  {
    if s == "" then [""]
    else
      var rest := Split(s[1..], sep);
      if s[0] == sep then [""] + rest else [[s[0]] + rest[0]] + rest[1..]
  }

  /** All parts, each cut at its separators. */
  function Pieces(parts: seq<string>, sep: char): seq<string> {
    if |parts| == 0 then [] else Split(parts[0], sep) + Pieces(parts[1..], sep)
  }

  lemma {:induction false} SplitPlain(s: string, sep: char)
    requires sep !in s
    ensures Split(s, sep) == [s]
  {
    if s != "" {
      assert s[0] in s;
      SplitPlain(s[1..], sep);
      assert [s[0]] + s[1..] == s;
    }
  }

  lemma {:induction false} SplitJoined(a: string, sep: char, rest: string)
    ensures Split(a + [sep] + rest, sep) == Split(a, sep) + Split(rest, sep)
  {
    var all := a + [sep] + rest;
    if a == "" {
      assert all[0] == sep && all[1..] == rest;
    } else {
      var tail, behind := Split(a[1..], sep), Split(rest, sep);
      SplitJoined(a[1..], sep, rest);
      assert all[1..] == a[1..] + [sep] + rest;
      SplitJoinedStep(all, a, sep, tail, behind);
    }
  }

  lemma SplitJoinedStep(all: string, a: string, sep: char, tail: seq<string>, behind: seq<string>)
    requires a != "" && all != "" && all[0] == a[0] && |tail| > 0
    requires Split(a[1..], sep) == tail && Split(all[1..], sep) == tail + behind
    ensures Split(all, sep) == Split(a, sep) + behind
  {
    if a[0] == sep {
      assert [""] + (tail + behind) == [""] + tail + behind;
    } else {
      assert (tail + behind)[0] == tail[0] && (tail + behind)[1..] == tail[1..] + behind;
      assert [[a[0]] + tail[0]] + (tail[1..] + behind) == [[a[0]] + tail[0]] + tail[1..] + behind;
    }
  }

  /** Joining undoes splitting. */
  lemma {:induction false} JoinOfSplit(s: string, sep: char)
    ensures Join(Split(s, sep), sep) == s
  {
    if s != "" {
      var rest := Split(s[1..], sep);
      JoinOfSplit(s[1..], sep);
      if s[0] == sep {
        assert ([""] + rest)[1..] == rest;
        assert "" + [sep] + s[1..] == s;
      } else {
        var all := [[s[0]] + rest[0]] + rest[1..];
        assert all[1..] == rest[1..];
        assert [s[0]] + s[1..] == s;
        if |rest| > 1 {
          assert [s[0]] + (rest[0] + [sep] + Join(rest[1..], sep)) == all[0] + [sep] + Join(all[1..], sep);
        }
      }
    }
  }

  lemma {:induction false} SplitOfJoin(parts: seq<string>, sep: char)
    requires |parts| > 0
    ensures Split(Join(parts, sep), sep) == Pieces(parts, sep)
  {
    if |parts| == 1 {
      assert Pieces(parts[1..], sep) == [];
    } else {
      SplitOfJoin(parts[1..], sep);
      SplitJoined(parts[0], sep, Join(parts[1..], sep));
    }
  }

  /** Two joins agree exactly when their parts, cut at the separators, do. */
  lemma JoinsAgreeIff(a: seq<string>, b: seq<string>, sep: char)
    requires |a| > 0 && |b| > 0
    ensures Join(a, sep) == Join(b, sep) <==> Pieces(a, sep) == Pieces(b, sep)
  {
    SplitOfJoin(a, sep);
    SplitOfJoin(b, sep);
    JoinOfSplit(Join(a, sep), sep);
    JoinOfSplit(Join(b, sep), sep);
  }

  lemma {:induction false} PiecesOfPlain(parts: seq<string>, sep: char)
    requires forall p :: p in parts ==> sep !in p
    ensures Pieces(parts, sep) == parts
  {
    if |parts| > 0 {
      SplitPlain(parts[0], sep);
      PiecesOfPlain(parts[1..], sep);
      assert [parts[0]] + parts[1..] == parts;
    }
  }

  /** A join of separator-free parts can be taken apart in one way only. */
  lemma JoinIsInjective(a: seq<string>, b: seq<string>, sep: char)
    requires |a| > 0 && |b| > 0 && Join(a, sep) == Join(b, sep)
    requires (forall p :: p in a ==> sep !in p) && (forall p :: p in b ==> sep !in p)
    ensures a == b
  {
    JoinsAgreeIff(a, b, sep);
    PiecesOfPlain(a, sep);
    PiecesOfPlain(b, sep);
  }

  lemma LastSeparatorBounds(a: string, x: string, b: string, y: string, sep: char)
    requires sep !in y && a + [sep] + x == b + [sep] + y
    ensures |a| <= |b|
  {
    assert (a + [sep] + x)[|a|] == sep;
    assert forall i :: |b| < i <= |b| + |y| ==> (b + [sep] + y)[i] == y[i - |b| - 1];
  }

  /** The last separator of a text splits it in one way. */
  lemma LastSeparator(a: string, x: string, b: string, y: string, sep: char)
    requires sep !in x && sep !in y && a + [sep] + x == b + [sep] + y
    ensures a == b && x == y
  {
    LastSeparatorBounds(a, x, b, y, sep);
    LastSeparatorBounds(b, y, a, x, sep);
    assert a == (a + [sep] + x)[..|a|] && b == (b + [sep] + y)[..|b|];
    assert x == (a + [sep] + x)[|a| + 1..] && y == (b + [sep] + y)[|b| + 1..];
  }
}
