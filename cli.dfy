/** The helpers of cli.go: the exit codes, `formatString` (the `format`
    filter of the release-notes template) and the loop of `inquired`, which
    sorts the commits of the log by the answer given for each at the prompt.
    Go strings are byte strings, so messages are sequences of bytes here. */
module Cli {

  newtype byte = x: int | 0 <= x < 256

  // ---------------------------------------------------------------- exit codes

  /** The value of the spec `10 + iota`, which the constants after
      `ExitCodeError` repeat implicitly; `iota` counts the specs of the
      block from 0, and `ExitCodeOK` is spec 0. */
  function TenPlusIota(iota: nat): (value: int)
  {
    10 + iota
  }

  const ExitCodeOK: int := 0
  const ExitCodeError: int := TenPlusIota(1)
  const ExitCodeParseFlagsError: int := TenPlusIota(2)
  const ExitCodeBadArgs: int := TenPlusIota(3)
  const ExitCodeTokenNotFound: int := TenPlusIota(4)
  const ExitCodeOwnerNotFound: int := TenPlusIota(5)

  /** The exit codes are 0 and 11..15, pairwise distinct: one above what the
      comments beside them state, since `ExitCodeError` sits at iota 1. */
  lemma ExitCodeValues()
    ensures ExitCodeOK == 0 && ExitCodeError == 11 && ExitCodeParseFlagsError == 12 &&
            ExitCodeBadArgs == 13 && ExitCodeTokenNotFound == 14 && ExitCodeOwnerNotFound == 15
    ensures var codes := [ExitCodeOK, ExitCodeError, ExitCodeParseFlagsError, ExitCodeBadArgs,
                          ExitCodeTokenNotFound, ExitCodeOwnerNotFound];
            forall i, j :: 0 <= i < j < |codes| ==> codes[i] != codes[j]
  {
  }

  // ------------------------------------------------------------- formatString

  const Newline: byte := 10
  const Ellipsis: seq<byte> := [46, 46, 46]
  /** `l`, the length from which a message is cut. */
  const Limit: nat := 33

  /** The index of the first occurrence of `x` in `s`, or `|s|` if there is
      none: where `strings.Replace` finds the newline it removes, and where
      `inquired` meets the first `End` answer. */
  function FirstIndex<T(==)>(s: seq<T>, x: T): (i: nat)
    ensures i <= |s|
    ensures i < |s| ==> s[i] == x
    ensures forall j :: 0 <= j < i ==> s[j] != x
  {
    if s == [] then 0
    else if s[0] == x then 0
    else 1 + FirstIndex(s[1..], x)
  }

  /** `strings.Replace(s, "\n", "", 1)`: the first newline, wherever it is,
      is removed; everything else is kept in order. */
  function ReplaceFirstNewline(s: seq<byte>): (r: seq<byte>)
    ensures Newline !in s ==> r == s
    ensures Newline in s ==> |r| == |s| - 1 && multiset(r) + multiset{Newline} == multiset(s)
    ensures forall j :: 0 <= j < FirstIndex(s, Newline) ==> r[j] == s[j]
    ensures forall j :: FirstIndex(s, Newline) <= j < |r| ==> r[j] == s[j + 1]
  {
    var i := FirstIndex(s, Newline);
    if i == |s| then s
    else
      assert s == s[..i] + [s[i]] + s[i + 1..];
      s[..i] + s[i + 1..]
  }

  /** `unicode.ToUpper` on the code points U+0000..U+00FF: the ASCII and
      Latin-1 small letters map to their capitals, U+00B5 MICRO SIGN to
      U+039C and U+00FF to U+0178; every other code point is kept. */
  function UpperRune(c: int): (u: int)
    requires 0 <= c < 0x100
    ensures 0 <= u < 0x800
    ensures u < 0x80 <==> c < 0x80
  {
    if 0x61 <= c <= 0x7A then c - 0x20
    else if c == 0xB5 then 0x39C
    else if 0xE0 <= c <= 0xFE && c != 0xF7 then c - 0x20
    else if c == 0xFF then 0x178
    else c
  }

  /** The UTF-8 encoding of a code point below U+0800. */
  function EncodeRune(c: int): (r: seq<byte>)
    requires 0 <= c < 0x800
    ensures |r| == if c < 0x80 then 1 else 2
    ensures c < 0x80 ==> r[0] as int == c
  {
    if c < 0x80 then [c as byte]
    else [(0xC0 + c / 0x40) as byte, (0x80 + c % 0x40) as byte]
  }

  /** ASCII upper-casing of one byte. */
  function AsciiUpper(b: byte): (u: byte)
  {
    if 0x61 <= b <= 0x7A then b - 0x20 else b
  }

  /** `strings.ToUpper(string(b0))`. Converting the byte `b0` to a string
      yields the UTF-8 encoding of the code point `b0`: one byte for ASCII,
      two bytes from 0x80 on. */
  function UpperFirst(b0: byte): (r: seq<byte>)
    ensures |r| == if b0 < 0x80 then 1 else 2
    ensures b0 < 0x80 ==> r == [AsciiUpper(b0)]
  {
    EncodeRune(UpperRune(b0 as int))
  }

  /** `formatString(s)`. Go panics indexing `b[0]` when nothing is left
      after the newline is removed. */
  function FormatString(s: seq<byte>): (r: seq<byte>)
    requires ReplaceFirstNewline(s) != []
    ensures |r| <= Limit
    ensures var b := ReplaceFirstNewline(s);
            |b| >= Limit ==> r == b[..Limit - 3] + Ellipsis && |r| == Limit
    ensures var b := ReplaceFirstNewline(s);
            b[0] < 0x80 && |b| < Limit ==> r == [AsciiUpper(b[0])] + b[1..] && |r| == |b|
  {
    var b := ReplaceFirstNewline(s);
    var t := UpperFirst(b[0]) + b[1..];
    if |t| < Limit then t else b[..Limit - 3] + Ellipsis
  }

  /** The formatter's precondition fails exactly for `""` and `"\n"`. */
  lemma NothingLeftToFormat(s: seq<byte>)
    ensures ReplaceFirstNewline(s) == [] <==> s == [] || s == [Newline]
  {
    if s == [Newline] {
      assert FirstIndex(s, Newline) == 0;
      assert ReplaceFirstNewline(s) == s[..0] + s[1..];
    }
    if ReplaceFirstNewline(s) == [] && s != [] {
      assert |s| == 1 && Newline in s;
    }
  }

  /** A message whose first byte is not ASCII grows by one byte when it is
      short, and is cut when the stripped message has 32 bytes: the length is
      kept only for an ASCII first byte. */
  lemma NonAsciiFirstByte(s: seq<byte>)
    requires ReplaceFirstNewline(s) != [] && ReplaceFirstNewline(s)[0] >= 0x80
    ensures var b := ReplaceFirstNewline(s);
            (|b| < Limit - 1 ==> |FormatString(s)| == |b| + 1) &&
            (|b| == Limit - 1 ==> FormatString(s) == b[..Limit - 3] + Ellipsis)
  {
  }

  // ----------------------------------------------------------------- inquired

  datatype Commit = Commit(message: seq<byte>, hash: seq<byte>)

  /** `Data`: the commits the user chose for each section of the notes. */
  datatype Data = Data(majors: seq<Commit>, minors: seq<Commit>, patches: seq<Commit>, ignore: seq<Commit>)

  /** The answers `prompt.Choose` returns: indices into `types`. */
  const MajorChange := 0
  const MinorChange := 1
  const PatchChange := 2
  const IgnoreChange := 3
  const EndChoice := 4

  /** How many commits `inquired` takes from the log: up to and including
      the first one answered `End`, or all there are answers for. */
  function Consumed(commits: seq<Commit>, answers: seq<int>): (n: nat)
    ensures n <= |commits| && n <= |answers|
    ensures forall j :: 0 <= j < n - 1 ==> answers[j] != EndChoice
    ensures n < |commits| && n < |answers| ==> 0 < n && answers[n - 1] == EndChoice
  {
    var m := if |commits| < |answers| then |commits| else |answers|;
    var e := FirstIndex(answers[..m], EndChoice);
    if e < m then e + 1 else m
  }

  /** The commits among the first `n` whose answer is `k`, in log order. */
  function Picked(commits: seq<Commit>, answers: seq<int>, n: nat, k: int): (p: seq<Commit>)
    requires n <= |commits| && n <= |answers|
    ensures |p| <= n
    ensures forall i :: 0 <= i < |p| ==> p[i] in commits[..n]
    decreases n
  {
    if n == 0 then []
    else Picked(commits, answers, n - 1, k) + (if answers[n - 1] == k then [commits[n - 1]] else [])
  }

  /** The loop of `inquired`: `commits` is the log in the order the iterator
      yields it and `answers[i]` the choice made for `commits[i]`. The loop
      ends when the log ends, when no answer is left, or after an `End`. */
  method Inquired(commits: seq<Commit>, answers: seq<int>) returns (data: Data)
    ensures var n := Consumed(commits, answers);
            data == Data(Picked(commits, answers, n, MajorChange), Picked(commits, answers, n, MinorChange),
                         Picked(commits, answers, n, PatchChange), [])
  {
    var majors, minors, patches, ignore := [], [], [], [];
    var i := 0;
    while true
      invariant i <= |commits| && i <= |answers|
      invariant forall j :: 0 <= j < i ==> answers[j] != EndChoice
      invariant majors == Picked(commits, answers, i, MajorChange)
      invariant minors == Picked(commits, answers, i, MinorChange)
      invariant patches == Picked(commits, answers, i, PatchChange)
      invariant ignore == []
      decreases |commits| - i
    {
      if i == |commits| || i == |answers| {
        break;
      }
      var log, choice := commits[i], answers[i];
      i := i + 1;
      if choice == MajorChange {
        majors := majors + [log];
      }
      if choice == MinorChange {
        minors := minors + [log];
      }
      if choice == PatchChange {
        patches := patches + [log];
      }
      if choice == EndChoice {
        break;
      }
    }
    data := Data(majors, minors, patches, ignore);
  }

  /** Each consumed commit lands in at most one of the three lists. */
  lemma {:induction false} RoutedAtMostOnce(commits: seq<Commit>, answers: seq<int>, n: nat)
    requires n <= |commits| && n <= |answers|
    ensures |Picked(commits, answers, n, MajorChange)| + |Picked(commits, answers, n, MinorChange)| +
            |Picked(commits, answers, n, PatchChange)| <= n
  {
    if n > 0 {
      RoutedAtMostOnce(commits, answers, n - 1);
    }
  }

  /** A commit answered `k` among the first `n` is in the list for `k`, and
      every commit of that list was answered `k`. */
  lemma {:induction false} PickedExactly(commits: seq<Commit>, answers: seq<int>, n: nat, k: int, c: Commit)
    requires n <= |commits| && n <= |answers|
    ensures c in Picked(commits, answers, n, k) <==> exists j :: 0 <= j < n && answers[j] == k && commits[j] == c
  {
    if n > 0 {
      PickedExactly(commits, answers, n - 1, k, c);
    }
  }

  /** The lists keep log order: what the first `m` commits contribute is a
      prefix of what the first `n >= m` contribute. */
  lemma {:induction false} PickedInLogOrder(commits: seq<Commit>, answers: seq<int>, m: nat, n: nat, k: int)
    requires m <= n <= |commits| && n <= |answers|
    ensures Picked(commits, answers, m, k) <= Picked(commits, answers, n, k)
  {
    if m < n {
      PickedInLogOrder(commits, answers, m, n - 1, k);
    }
  }
}
