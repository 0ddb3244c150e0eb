/** The sort key of `wire/canonical.py`: a string as its UTF-16 code units. */
module Utf16 {
  /** A Python `str` character: any code point, lone surrogates included. */
  type CodePoint = c: int | 0 <= c <= 0x10FFFF
  type Unit = u: int | 0 <= u <= 0xFFFF

  predicate High(u: int) { 0xD800 <= u <= 0xDBFF }
  predicate Low(u: int) { 0xDC00 <= u <= 0xDFFF }

  function CharUnits(cp: CodePoint): (us: seq<Unit>)
    ensures 1 <= |us| <= 2
  {
    if cp > 0xFFFF then [0xD800 + (cp - 0x10000) / 0x400, 0xDC00 + (cp - 0x10000) % 0x400] else [cp]
  }

  function Key(s: seq<CodePoint>): seq<Unit> {
    if s == [] then [] else CharUnits(s[0]) + Key(s[1..])
  }

  lemma KeySnoc(s: seq<CodePoint>, c: CodePoint)
    ensures Key(s + [c]) == Key(s) + CharUnits(c)
  {
    if s == [] {
      assert s + [c] == [c];
    } else {
      assert (s + [c])[1..] == s[1..] + [c];
    }
  }

  /** The loop of `_utf16_key`, which appends one or two units a character. */
  method Utf16Key(s: seq<CodePoint>) returns (units: seq<Unit>)
    ensures units == Key(s)
  {
    units := [];
    for i := 0 to |s|
      invariant units == Key(s[..i])
    {
      KeySnoc(s[..i], s[i]);
      assert s[..i + 1] == s[..i] + [s[i]];
      var cp: int := s[i];
      if cp > 0xFFFF {
        cp := cp - 0x10000;
        units := units + [0xD800 + cp / 0x400];
        units := units + [0xDC00 + cp % 0x400];
      } else {
        units := units + [cp];
      }
    }
    assert s[..|s|] == s;
  }

  /** Reads code units back: a high surrogate followed by a low one is one astral character. */
  function Decode(us: seq<Unit>): seq<CodePoint> {
    if us == [] then []
    else if |us| >= 2 && High(us[0]) && Low(us[1]) then
      [0x10000 + (us[0] - 0xD800) * 0x400 + (us[1] - 0xDC00)] + Decode(us[2..])
    else [us[0]] + Decode(us[1..])
  }

  /** No high surrogate code point stands directly before a low one. */
  predicate NoSplitPair(s: seq<CodePoint>) {
    forall i :: 0 <= i < |s| - 1 ==> !(High(s[i]) && Low(s[i + 1]))
  }

  lemma {:induction false} DecodeUndoesKey(s: seq<CodePoint>)
    requires NoSplitPair(s)
    ensures Decode(Key(s)) == s
  {
    if s != [] {
      assert NoSplitPair(s[1..]) by {
        forall i | 0 <= i < |s[1..]| - 1
          ensures !(High(s[1..][i]) && Low(s[1..][i + 1]))
        {
          assert s[1..][i] == s[i + 1] && s[1..][i + 1] == s[i + 2];
        }
      }
      DecodeUndoesKey(s[1..]);
      var us := Key(s);
      if s[0] > 0xFFFF {
        assert us[2..] == Key(s[1..]);
      } else {
        assert us[1..] == Key(s[1..]);
        if |s| > 1 {
          assert us[1] == CharUnits(s[1])[0] by { assert Key(s[1..]) == CharUnits(s[1]) + Key(s[1..][1..]); }
        }
      }
    }
  }

  lemma {:induction false} DecodeHasNoSplitPair(us: seq<Unit>)
    ensures NoSplitPair(Decode(us))
    ensures us != [] ==> Decode(us) != [] && (Low(Decode(us)[0]) ==> Low(us[0]))
  {
    if us != [] {
      if |us| >= 2 && High(us[0]) && Low(us[1]) {
        DecodeHasNoSplitPair(us[2..]);
      } else {
        DecodeHasNoSplitPair(us[1..]);
      }
    }
  }

  /** Exactly the strings whose key can be read back: those with no high-low pair of code points. */
  lemma DecodeKeyIff(s: seq<CodePoint>)
    ensures Decode(Key(s)) == s <==> NoSplitPair(s)
  {
    if NoSplitPair(s) { DecodeUndoesKey(s); }
    DecodeHasNoSplitPair(Key(s));
  }

  /** The key of U+10000 is also the key of the two code points U+D800 U+DC00. */
  lemma KeyNotInjective()
    ensures Key([0x10000]) == Key([0xD800, 0xDC00]) == [0xD800, 0xDC00]
  {
    assert Key([0x10000]) == CharUnits(0x10000) + Key([]);
    var s: seq<CodePoint> := [0xD800, 0xDC00];
    assert Key(s) == CharUnits(s[0]) + Key(s[1..]);
    assert s[1..] == [0xDC00];
    assert Key([0xDC00]) == CharUnits(0xDC00) + Key([]);
  }

  /** Every key is read back as the string it is the key of. */
  lemma {:induction false} KeyUndoesDecode(us: seq<Unit>)
    ensures Key(Decode(us)) == us
  {
    if us != [] {
      var n := if |us| >= 2 && High(us[0]) && Low(us[1]) then 2 else 1;
      KeyUndoesDecode(us[n..]);
      assert Decode(us)[1..] == Decode(us[n..]);
      assert us == us[..n] + us[n..];
    }
  }

  /** The string with each high-low pair of code points joined to the astral character it spells. */
  function JoinPairs(s: seq<CodePoint>): seq<CodePoint> {
    if s == [] then []
    else if |s| >= 2 && High(s[0]) && Low(s[1]) then
      [0x10000 + (s[0] - 0xD800) * 0x400 + (s[1] - 0xDC00)] + JoinPairs(s[2..])
    else [s[0]] + JoinPairs(s[1..])
  }

  lemma KeyOne(s: seq<CodePoint>)
    requires s != [] && s[0] <= 0xFFFF
    ensures Key(s) != [] && Key(s)[0] == s[0] && Key(s)[1..] == Key(s[1..])
  {}

  lemma {:induction false} JoinIsDecode(s: seq<CodePoint>)
    ensures JoinPairs(s) == Decode(Key(s))
    decreases |s|
  {
    if s == [] {
    } else if s[0] > 0xFFFF {
      assert Key(s)[2..] == Key(s[1..]);
      JoinIsDecode(s[1..]);
    } else {
      KeyOne(s);
      if |s| >= 2 && High(s[0]) && Low(s[1]) {
        KeyOne(s[1..]);
        assert s[1..][1..] == s[2..] && Key(s)[2..] == Key(s)[1..][1..];
        JoinIsDecode(s[2..]);
      } else {
        if |s| >= 2 { assert Key(s[1..]) == CharUnits(s[1]) + Key(s[1..][1..]); }
        JoinIsDecode(s[1..]);
      }
    }
  }

  /** Two strings have one key exactly when they agree once their pairs are joined. */
  lemma SameKeyExactly(s: seq<CodePoint>, t: seq<CodePoint>)
    ensures Key(s) == Key(t) <==> JoinPairs(s) == JoinPairs(t)
  {
    JoinIsDecode(s);
    JoinIsDecode(t);
    KeyUndoesDecode(Key(s));
    KeyUndoesDecode(Key(t));
  }

  /** Of the strings with no split pair exactly one has the key of s: s with its pairs joined, which
      is s itself exactly when s has none. */
  lemma KeyOwner(s: seq<CodePoint>, t: seq<CodePoint>)
    ensures NoSplitPair(t) && Key(t) == Key(s) <==> t == JoinPairs(s)
    ensures JoinPairs(s) == s <==> NoSplitPair(s)
  {
    JoinIsDecode(s);
    DecodeHasNoSplitPair(Key(s));
    KeyUndoesDecode(Key(s));
    DecodeKeyIff(s);
    DecodeKeyIff(t);
  }

  predicate Astral(s: seq<CodePoint>) { exists i :: 0 <= i < |s| && s[i] > 0xFFFF }

  ghost predicate SharesKey(s: seq<CodePoint>) { exists t: seq<CodePoint> :: t != s && Key(t) == Key(s) }

  lemma {:induction false} JoinedIsAstral(s: seq<CodePoint>, i: nat)
    requires i + 1 < |s| && High(s[i]) && Low(s[i + 1])
    ensures Astral(JoinPairs(s))
    decreases |s|
  {
    if i == 0 {
      assert JoinPairs(s)[0] > 0xFFFF;
    } else {
      var n := if High(s[0]) && Low(s[1]) then 2 else 1;
      var rest := s[n..];
      assert rest[i - n] == s[i] && rest[i - n + 1] == s[i + 1];
      JoinedIsAstral(rest, i - n);
      var k :| 0 <= k < |JoinPairs(rest)| && JoinPairs(rest)[k] > 0xFFFF;
      assert JoinPairs(s)[k + 1] == JoinPairs(rest)[k];
    }
  }

  /** The same string with one astral character spelled as two surrogates. */
  lemma {:induction false} Spelled(s: seq<CodePoint>, i: nat) returns (t: seq<CodePoint>)
    requires i < |s| && s[i] > 0xFFFF
    ensures |t| == |s| + 1 && Key(t) == Key(s)
  {
    if i == 0 {
      var us := CharUnits(s[0]);
      t := [us[0], us[1]] + s[1..];
      KeyOne(t);
      KeyOne(t[1..]);
      assert t[1..][1..] == s[1..];
    } else {
      var rest := Spelled(s[1..], i - 1);
      t := [s[0]] + rest;
      assert t[1..] == rest;
    }
  }

  /** A string is alone with its key exactly when it has neither an astral character nor a pair. */
  lemma SharesKeyExactly(s: seq<CodePoint>)
    ensures SharesKey(s) <==> Astral(s) || !NoSplitPair(s)
  {
    KeyOwner(s, s);
    KeyOwner(s, JoinPairs(s));
    if Astral(s) {
      var i :| 0 <= i < |s| && s[i] > 0xFFFF;
      var t := Spelled(s, i);
    } else if NoSplitPair(s) {
      forall t: seq<CodePoint> | Key(t) == Key(s) ensures t == s {
        SameKeyExactly(s, t);
        KeyOwner(t, t);
        if !NoSplitPair(t) {
          var i :| 0 <= i < |t| - 1 && High(t[i]) && Low(t[i + 1]);
          JoinedIsAstral(t, i);
        }
      }
    }
  }

  /** The code points of a well-formed string. Dafny's `char` is a Unicode scalar value. */
  function Points(s: string): (ps: seq<CodePoint>)
    ensures |ps| == |s|
  {
    seq(|s|, i requires 0 <= i < |s| => s[i] as int)
  }

  lemma PointsScalar(s: string)
    ensures NoSplitPair(Points(s))
  {}

  lemma KeyInjective(s: string, t: string)
    requires Key(Points(s)) == Key(Points(t))
    ensures s == t
  {
    PointsScalar(s);
    PointsScalar(t);
    DecodeUndoesKey(Points(s));
    DecodeUndoesKey(Points(t));
    forall i | 0 <= i < |s| ensures s[i] == t[i] {
      assert Points(s)[i] == Points(t)[i];
    }
  }
}
