/** internal/project: cutting text into bounded pieces on rune boundaries. Text is bytes, as a
    Go string is. */
module Texts {
  import opened Taps

  /** utf8.RuneStart: the byte is not a continuation byte. */
  predicate RuneStart(b: byte) {
    !(0x80 <= b < 0xC0)
  }

  predicate Tail(s: seq<byte>, from: nat, to: nat) {
    to <= |s| && forall i | from <= i < to :: 0x80 <= s[i] < 0xC0
  }

  /** The length of the well-formed sequence at the start of `s`, 0 if there is none
      (section 4 of RFC 3629). */
  function RuneLength(s: seq<byte>): (n: nat)
    ensures n <= |s| && n <= 4
  {
    if s == [] then 0
    else if s[0] <= 0x7F then 1
    else if 0xC2 <= s[0] <= 0xDF && Tail(s, 1, 2) then 2
    else if 0xE0 <= s[0] <= 0xEF && Tail(s, 1, 3) &&
            (s[0] == 0xE0 ==> s[1] >= 0xA0) && (s[0] == 0xED ==> s[1] <= 0x9F) then 3
    else if 0xF0 <= s[0] <= 0xF4 && Tail(s, 1, 4) &&
            (s[0] == 0xF0 ==> s[1] >= 0x90) && (s[0] == 0xF4 ==> s[1] <= 0x8F) then 4
    else 0
  }

  /** utf8.ValidString. */
  predicate Valid(s: seq<byte>)
    decreases |s|
  {
    s == [] || (RuneLength(s) > 0 && Valid(s[RuneLength(s)..]))
  }

  /** A rune begins at `k`, or the text ends there. */
  predicate Boundary(s: seq<byte>, k: int) {
    0 <= k <= |s| && (k == |s| || RuneStart(s[k]))
  }

  lemma RuneLengthPrefix(s: seq<byte>, t: seq<byte>)
    requires RuneLength(s) > 0
    ensures RuneLength(s + t) == RuneLength(s)
  {
  }

  /** The first rune's bytes alone are that rune, and only its first byte starts one. */
  lemma FirstRune(s: seq<byte>)
    requires RuneLength(s) > 0
    ensures RuneStart(s[0])
    ensures forall i | 0 < i < RuneLength(s) :: !RuneStart(s[i])
    ensures forall k | RuneLength(s) <= k <= |s| :: RuneLength(s[..k]) == RuneLength(s)
  {
  }

  /** Cutting valid text at a boundary leaves two valid parts; cutting it elsewhere leaves none. */
  lemma {:induction false} CutValid(s: seq<byte>, k: nat)
    requires Valid(s) && k <= |s|
    ensures Valid(s[..k]) <==> Boundary(s, k)
    ensures Boundary(s, k) ==> Valid(s[k..])
    ensures Valid(s[k..]) ==> Boundary(s, k)
    decreases |s|
  {
    if s != [] {
      FirstRune(s);
      var n := RuneLength(s);
      if k == 0 {
        assert s[..0] == [] && s[0..] == s;
      } else if k < n {
        CutInside(s, k);
      } else {
        CutValid(s[n..], k - n);
        CutAfterFirst(s, k);
      }
    } else {
      assert s[..k] == [] && s[k..] == [];
    }
  }

  /** Past the first rune, a cut of the text is a cut of what follows it. */
  lemma CutAfterFirst(s: seq<byte>, k: nat)
    requires 0 < RuneLength(s) <= k <= |s|
    ensures var n := RuneLength(s);
            && Valid(s[..k]) == Valid(s[n..][..k - n])
            && s[k..] == s[n..][k - n..]
            && Boundary(s, k) == Boundary(s[n..], k - n)
  {
    var n := RuneLength(s);
    FirstRune(s);
    assert RuneLength(s[..k]) == n;
    assert s[..k][n..] == s[n..][..k - n];
    assert k < |s| ==> s[k] == s[n..][k - n];
  }

  lemma CutInside(s: seq<byte>, k: nat)
    requires 0 < k < RuneLength(s)
    ensures !Valid(s[..k]) && !Valid(s[k..]) && !Boundary(s, k)
  {
    FirstRune(s);
    var head := s[..k];
    assert RuneLength(head) == 0;
    assert RuneLength(s[k..]) == 0;
  }

  lemma {:induction false} ValidConcat(a: seq<byte>, b: seq<byte>)
    requires Valid(a) && Valid(b)
    ensures Valid(a + b)
    decreases |a|
  {
    if a == [] {
      assert a + b == b;
    } else {
      RuneLengthPrefix(a, b);
      var n := RuneLength(a);
      assert (a + b)[n..] == a[n..] + b;
      ValidConcat(a[n..], b);
    }
  }

  /** Valid text has a boundary among any four positions in a row. */
  lemma {:induction false} BoundaryNear(s: seq<byte>, k: nat)
    requires Valid(s) && k <= |s|
    ensures exists j :: k - 3 <= j <= k && Boundary(s, j)
    ensures k + 3 <= |s| ==> exists j :: k <= j <= k + 3 && Boundary(s, j)
    decreases |s|
  {
    if s == [] {
      assert Boundary(s, 0);
    } else {
      FirstRune(s);
      var n := RuneLength(s);
      if k < n {
        assert Boundary(s, 0) && Boundary(s, n) by {
          CutValid(s, n);
          assert Valid(s[..n]) by {
            assert s[..n][n..] == [];
          }
        }
      } else {
        BoundaryNear(s[n..], k - n);
        forall j | 0 <= j <= |s| - n
          ensures Boundary(s[n..], j) == Boundary(s, j + n)
        {
          assert j < |s| - n ==> s[n..][j] == s[j + n];
        }
        var j :| k - n - 3 <= j <= k - n && Boundary(s[n..], j);
        assert Boundary(s, j + n);
        if k + 3 <= |s| {
          var j' :| k - n <= j' <= k - n + 3 && Boundary(s[n..], j');
          assert Boundary(s, j' + n);
        }
      }
    }
  }

  // ---- SplitText ----

  function Concat(parts: seq<seq<byte>>): seq<byte> {
    if parts == [] then [] else Concat(parts[..|parts| - 1]) + parts[|parts| - 1]
  }

  lemma ConcatAppend(parts: seq<seq<byte>>, part: seq<byte>)
    ensures Concat(parts + [part]) == Concat(parts) + part
  {
    assert (parts + [part])[..|parts|] == parts;
  }

  /** The inner loop of SplitText: back from the limit to where a rune starts. */
  method FindCut(text: seq<byte>, limit: nat) returns (cut: nat)
    requires 0 < limit < |text|
    ensures 0 < cut <= limit
    ensures Valid(text) && limit >= 4 ==> Boundary(text, cut)
    ensures Valid(text) ==> cut > limit - 4
  {
    cut := limit;
    while cut > 0 && !RuneStart(text[cut])
      invariant 0 <= cut <= limit
      invariant forall j | cut < j <= limit :: !RuneStart(text[j])
    {
      cut := cut - 1;
    }
    if Valid(text) {
      BoundaryNear(text, limit);
      assert forall j | cut < j <= limit :: !Boundary(text, j);
    }
    if cut == 0 {
      cut := limit;
    }
  }

  predicate AllValid(parts: seq<seq<byte>>) {
    forall i | 0 <= i < |parts| :: Valid(parts[i])
  }

  lemma CutKeeps(parts: seq<seq<byte>>, rest: seq<byte>, cut: nat)
    requires cut <= |rest|
    ensures Concat(parts + [rest[..cut]]) + rest[cut..] == Concat(parts) + rest
    ensures Valid(rest) && Boundary(rest, cut) ==> Valid(rest[..cut]) && Valid(rest[cut..])
  {
    ConcatAppend(parts, rest[..cut]);
    assert rest == rest[..cut] + rest[cut..];
    if Valid(rest) {
      CutValid(rest, cut);
    }
  }

  /** Every piece is as the limit and the text allow: nothing is lost, no piece is empty, longer
      than the limit or needlessly short, and valid text is cut between runes. */
  method SplitText(text: seq<byte>, limit: int) returns (parts: seq<seq<byte>>)
    ensures Concat(parts) == text
    ensures limit <= 0 || |text| <= limit ==> parts == [text]
    ensures |text| > limit > 0 ==> forall i | 0 <= i < |parts| :: 0 < |parts[i]| <= limit
    ensures Valid(text) && (limit <= 0 || limit >= 4) ==> AllValid(parts)
    ensures Valid(text) && limit >= 4 ==> forall i | 0 <= i < |parts| - 1 :: |parts[i]| > limit - 4
  {
    if limit <= 0 || |text| <= limit {
      ConcatAppend([], text);
      return [text];
    }
    parts := [];
    var rest := text;
    while |rest| > limit
      invariant Concat(parts) + rest == text
      invariant rest != [] && forall i | 0 <= i < |parts| :: 0 < |parts[i]| <= limit
      invariant Valid(text) && limit >= 4 ==> Valid(rest) && AllValid(parts)
      invariant Valid(text) && limit >= 4 ==> forall i | 0 <= i < |parts| :: |parts[i]| > limit - 4
    {
      var cut := FindCut(rest, limit);
      CutKeeps(parts, rest, cut);
      parts := parts + [rest[..cut]];
      rest := rest[cut..];
    }
    ConcatAppend(parts, rest);
    parts := parts + [rest];
  }

  /** The four-byte rune U+10000. */
  const WIDE: seq<byte> := [0xF0, 0x90, 0x80, 0x80]

  /** Limits 1 to 3 cannot keep runes whole: any pieces of a four-byte rune within such a limit
      include an invalid one. Together with SplitText this makes `limit <= 0 || limit >= 4`
      exactly the limits at which all valid text is cut between runes. */
  lemma SmallLimitsBreakRunes(parts: seq<seq<byte>>, limit: int)
    requires 1 <= limit <= 3
    requires Concat(parts) == WIDE && forall i | 0 <= i < |parts| :: |parts[i]| <= limit
    ensures Valid(WIDE) && !AllValid(parts)
  {
    assert RuneLength(WIDE) == 4 && WIDE[4..] == [];
    if AllValid(parts) {
      FirstPart(parts, WIDE);
    }
  }

  /** A valid non-empty piece at the front of a text is at least its first rune long. */
  lemma {:induction false} FirstPart(parts: seq<seq<byte>>, text: seq<byte>)
    requires Concat(parts) == text && AllValid(parts) && RuneLength(text) > 0
    ensures exists i :: 0 <= i < |parts| && |parts[i]| >= RuneLength(text)
  {
    var last := |parts| - 1;
    var front := Concat(parts[..last]);
    if front == [] {
      assert parts[last] == text;
      assert |parts[last]| >= RuneLength(text);
    } else {
      assert AllValid(parts[..last]);
      ConcatValid(parts[..last]);
      RuneLengthPrefix(front, parts[last]);
      FirstPart(parts[..last], front);
      var i :| 0 <= i < last && |parts[..last][i]| >= RuneLength(front);
      assert parts[..last][i] == parts[i];
    }
  }

  lemma {:induction false} ConcatValid(parts: seq<seq<byte>>)
    requires AllValid(parts)
    ensures Valid(Concat(parts))
  {
    if parts != [] {
      ConcatValid(parts[..|parts| - 1]);
      ValidConcat(Concat(parts[..|parts| - 1]), parts[|parts| - 1]);
    }
  }

  // ---- BoundText ----

  /** What BoundText keeps of a long text: a head, the number of bytes left out, a tail. */
  datatype Bounded = Whole(text: seq<byte>) | Cut(head: seq<byte>, omitted: nat, tail: seq<byte>)

  predicate ValidTo(text: seq<byte>, k: int) {
    0 <= k <= |text| && Valid(text[..k])
  }

  predicate ValidFrom(text: seq<byte>, i: int) {
    0 <= i <= |text| && Valid(text[i..])
  }

  /** The longest valid prefix of at most `half` bytes. */
  method KeepHead(text: seq<byte>, half: nat) returns (head: seq<byte>)
    requires half <= |text|
    ensures |head| <= half && head == text[..|head|] && Valid(head)
    ensures forall k | |head| < k <= half :: !ValidTo(text, k)
    ensures Valid(text) ==> |head| >= half - 3
  {
    head := text[..half];
    while !Valid(head) && |head| > 0
      invariant |head| <= half && head == text[..|head|]
      invariant forall k | |head| < k <= half :: !ValidTo(text, k)
    {
      assert head[..|head| - 1] == text[..|head| - 1];
      head := head[..|head| - 1];
    }
    if Valid(text) {
      ValidPrefixNear(text, half);
    }
  }

  lemma ValidPrefixNear(text: seq<byte>, k: nat)
    requires Valid(text) && k <= |text|
    ensures exists j :: k - 3 <= j <= k && ValidTo(text, j)
  {
    BoundaryNear(text, k);
    var j :| k - 3 <= j <= k && Boundary(text, j);
    CutValid(text, j);
    assert ValidTo(text, j);
  }

  /** The longest valid suffix of at most `half` bytes. */
  method KeepTail(text: seq<byte>, half: nat) returns (tail: seq<byte>)
    requires half <= |text|
    ensures |tail| <= half && tail == text[|text| - |tail|..] && Valid(tail)
    ensures forall i | |text| - half <= i < |text| - |tail| :: !ValidFrom(text, i)
    ensures Valid(text) ==> |tail| >= half - 3
  {
    tail := text[|text| - half..];
    while !Valid(tail) && |tail| > 0
      invariant |tail| <= half && tail == text[|text| - |tail|..]
      invariant forall i | |text| - half <= i < |text| - |tail| :: !ValidFrom(text, i)
    {
      assert tail[1..] == text[|text| - |tail| + 1..];
      tail := tail[1..];
    }
    if Valid(text) && half >= 3 {
      ValidSuffixNear(text, |text| - half);
    }
  }

  lemma ValidSuffixNear(text: seq<byte>, k: nat)
    requires Valid(text) && k + 3 <= |text|
    ensures exists i :: k <= i <= k + 3 && ValidFrom(text, i)
  {
    BoundaryNear(text, k);
    var i :| k <= i <= k + 3 && Boundary(text, i);
    CutValid(text, i);
    assert ValidFrom(text, i);
  }

  lemma Rejoin(text: seq<byte>, head: seq<byte>, tail: seq<byte>)
    requires |head| + |tail| <= |text| && head == text[..|head|] && tail == text[|text| - |tail|..]
    ensures exists middle :: |middle| == |text| - |head| - |tail| && text == head + middle + tail
  {
    var middle := text[|head|..|text| - |tail|];
    assert text == head + middle + tail;
  }

  /** A text of at most `limit` bytes is kept whole; of a longer one the longest valid prefix and
      the longest valid suffix of half the limit each, and the exact count of what is left out. */
  method BoundText(text: seq<byte>, limit: int) returns (b: Bounded)
    ensures b.Whole? <==> limit <= 0 || |text| <= limit
    ensures b.Whole? ==> b.text == text
    ensures b.Cut? ==> |b.head| + |b.tail| <= limit && Valid(b.head) && Valid(b.tail)
    ensures b.Cut? ==> exists middle :: |middle| == b.omitted && text == b.head + middle + b.tail
    ensures b.Cut? ==> forall k | |b.head| < k <= limit / 2 :: !ValidTo(text, k)
    ensures b.Cut? ==> forall i | |text| - limit / 2 <= i < |text| - |b.tail| :: !ValidFrom(text, i)
    ensures b.Cut? && Valid(text) ==> |b.head| >= limit / 2 - 3 && |b.tail| >= limit / 2 - 3
  {
    if limit <= 0 || |text| <= limit {
      return Whole(text);
    }
    var half := limit / 2;
    var head := KeepHead(text, half);
    var tail := KeepTail(text, half);
    Rejoin(text, head, tail);
    b := Cut(head, |text| - |head| - |tail|, tail);
  }
}
