/** UTF-8 as bytes: well-formed strings, character boundaries, and cutting a string short. */
module Utf8 {
  import opened Basics

  predicate Tail(b: Byte) {
    0x80 <= b <= 0xBF
  }

  /** The length of the well-formed character a text starts with, or 0 (RFC 3629, section 4). */
  function CharLength(s: seq<Byte>): (n: nat)
    ensures n <= 4 && n <= |s|
  {
    if s == [] then 0
    else if s[0] <= 0x7F then 1
    else if |s| >= 2 && 0xC2 <= s[0] <= 0xDF && Tail(s[1]) then 2
    else if |s| >= 3 && 0xE0 <= s[0] <= 0xEF && Tail(s[1]) && Tail(s[2])
            && (s[0] == 0xE0 ==> 0xA0 <= s[1]) && (s[0] == 0xED ==> s[1] <= 0x9F) then 3
    else if |s| >= 4 && 0xF0 <= s[0] <= 0xF4 && Tail(s[1]) && Tail(s[2]) && Tail(s[3])
            && (s[0] == 0xF0 ==> 0x90 <= s[1]) && (s[0] == 0xF4 ==> s[1] <= 0x8F) then 4
    else 0
  }

  predicate ValidUtf8(s: seq<Byte>)
    decreases |s|
  {
    s == [] || (CharLength(s) > 0 && ValidUtf8(s[CharLength(s)..]))
  }

  /** `str::is_char_boundary`. */
  predicate IsCharBoundary(s: seq<Byte>, i: nat) {
    i == 0 || i == |s| || (i < |s| && !Tail(s[i]))
  }

  lemma CharHasTail(s: seq<Byte>)
    requires CharLength(s) > 0
    ensures !Tail(s[0]) && forall i | 0 < i < CharLength(s) :: Tail(s[i])
  {
  }

  lemma CharOfPrefix(s: seq<Byte>, i: nat)
    requires CharLength(s) > 0 && i <= |s|
    ensures CharLength(s) <= i ==> CharLength(s[..i]) == CharLength(s)
    ensures 0 < i < CharLength(s) ==> CharLength(s[..i]) == 0
  {
  }

  /** Cutting well-formed text leaves well-formed text exactly at a character boundary. */
  lemma {:induction false} BoundaryExactly(s: seq<Byte>, i: nat)
    requires ValidUtf8(s) && i <= |s|
    ensures ValidUtf8(s[..i]) <==> IsCharBoundary(s, i)
    decreases |s|
  {
    if s != [] && 0 < i {
      var n := CharLength(s);
      CharHasTail(s);
      CharOfPrefix(s, i);
      if n <= i {
        BoundaryExactly(s[n..], i - n);
        assert s[n..][..i - n] == s[n..i] == s[..i][n..];
        StartsWithCharacter(s[n..]);
      }
    }
  }

  lemma StartsWithCharacter(s: seq<Byte>)
    requires ValidUtf8(s)
    ensures s != [] ==> !Tail(s[0])
  {
    if s != [] {
      CharHasTail(s);
    }
  }

  lemma {:induction false} ValidConcat(a: seq<Byte>, b: seq<Byte>)
    requires ValidUtf8(a) && ValidUtf8(b)
    ensures ValidUtf8(a + b)
    decreases |a|
  {
    if a == [] {
      assert a + b == b;
    } else {
      var n := CharLength(a);
      assert (a + b)[n..] == a[n..] + b;
      ValidConcat(a[n..], b);
      CharOfExtension(a, b);
    }
  }

  lemma CharOfExtension(a: seq<Byte>, b: seq<Byte>)
    requires CharLength(a) > 0
    ensures CharLength(a + b) == CharLength(a)
  {
  }

  /** `text` is the longest well-formed prefix of `value` of at most `max` bytes. */
  ghost predicate IsLongestPrefix(value: seq<Byte>, max: nat, text: seq<Byte>) {
    && text <= value && |text| <= max && ValidUtf8(text)
    && forall i | |text| < i <= max && i <= |value| :: !ValidUtf8(value[..i])
  }

  /** The largest boundary not above `end`. */
  function BoundaryBelow(value: seq<Byte>, end: nat): (i: nat)
    requires end <= |value|
    ensures i <= end && IsCharBoundary(value, i)
    ensures forall j | i < j <= end :: !IsCharBoundary(value, j)
  {
    if IsCharBoundary(value, end) then end else BoundaryBelow(value, end - 1)
  }

  /** What `truncate_utf8` keeps. */
  function Clip(value: seq<Byte>, max: nat): (text: seq<Byte>)
    ensures |text| <= max && text <= value
  {
    if |value| <= max then value else value[..BoundaryBelow(value, max)]
  }

  lemma ClipIsLongestPrefix(value: seq<Byte>, max: nat)
    requires ValidUtf8(value)
    ensures IsLongestPrefix(value, max, Clip(value, max))
    ensures |value| <= max <==> Clip(value, max) == value
  {
    if |value| <= max {
      assert value[..|value|] == value;
    } else {
      forall i | 0 <= i <= max
        ensures ValidUtf8(value[..i]) <==> IsCharBoundary(value, i)
      {
        BoundaryExactly(value, i);
      }
    }
  }

  /** No more than three bytes are given up, since a character has at most four. */
  lemma ClipLosesLittle(value: seq<Byte>, max: nat)
    requires ValidUtf8(value) && max < |value|
    ensures max - 3 <= |Clip(value, max)|
  {
    var i := BoundaryBelow(value, max);
    BoundaryExactly(value, i);
    var rest := value[i..];
    SuffixIsValid(value, i);
    CharHasTail(rest);
    if i + CharLength(rest) <= max {
      SuffixIsValid(rest, CharLength(rest));
      StartsWithCharacter(rest[CharLength(rest)..]);
      assert IsCharBoundary(value, i + CharLength(rest));
    }
  }

  lemma {:induction false} SuffixIsValid(s: seq<Byte>, i: nat)
    requires ValidUtf8(s) && i <= |s| && IsCharBoundary(s, i)
    ensures ValidUtf8(s[i..])
    decreases |s|
  {
    if 0 < i {
      var n := CharLength(s);
      CharHasTail(s);
      SuffixIsValid(s[n..], i - n);
      assert s[n..][i - n..] == s[i..];
    }
  }

  /** `truncate_utf8`. */
  method TruncateUtf8(value: seq<Byte>, max: nat) returns (text: seq<Byte>, truncated: bool)
    requires ValidUtf8(value)
    ensures text == Clip(value, max) && IsLongestPrefix(value, max, text)
    ensures truncated <==> |value| > max
  {
    ClipIsLongestPrefix(value, max);
    if |value| <= max {
      return value, false;
    }
    var end := max;
    while !IsCharBoundary(value, end)
      invariant 0 <= end <= max
      invariant BoundaryBelow(value, end) == BoundaryBelow(value, max)
      decreases end
    {
      end := end - 1;
    }
    return value[..end], true;
  }
}
