/**
 * The few Python string operations the simulation core relies on, over ASCII:
 * str(n) for integers, str.isdigit, int(s) on a digit string, s.split(c) for a
 * one-character separator and sep.join(parts).
 */
module Text {

  predicate IsDigit(c: char) { '0' <= c <= '9' }

  /** str.isdigit restricted to ASCII digits: false on the empty string. */
  predicate IsDigits(s: string) {
    |s| > 0 && forall i :: 0 <= i < |s| ==> IsDigit(s[i])
  }

  function DigitChar(d: nat): (c: char)
    requires d < 10
    ensures IsDigit(c)
  {
    ('0' as int + d) as char
  }

  /** int(s) for a string of ASCII digits; leading zeros are allowed. */
  function DigitsValue(s: string): nat
    requires forall i :: 0 <= i < |s| ==> IsDigit(s[i])
  {
    if |s| == 0 then 0
    else
      assert IsDigit(s[|s| - 1]);
      DigitsValue(s[..|s| - 1]) * 10 + (s[|s| - 1] as int - '0' as int)
  }

  /** str(n) for a natural number: its shortest decimal rendering. */
  function NatToString(n: nat): (s: string)
    ensures IsDigits(s)
  {
    if n < 10 then [DigitChar(n)] else NatToString(n / 10) + [DigitChar(n % 10)]
  }

  /** str(n) for any integer: a leading '-' for a negative number. */
  function IntToString(n: int): (s: string)
    ensures IsDigits(s) <==> n >= 0
    ensures forall i :: 0 <= i < |s| ==> IsDigit(s[i]) || s[i] == '-'
  {
    if n < 0 then
      var s := "-" + NatToString(-n);
      assert !IsDigit(s[0]);
      s
    else NatToString(n)
  }

  /** Reading back a rendered natural number gives the number. */
  lemma {:induction false} NatToStringRoundTrip(n: nat)
    ensures DigitsValue(NatToString(n)) == n
  {
    var s := NatToString(n);
    if n >= 10 {
      NatToStringRoundTrip(n / 10);
      assert s[..|s| - 1] == NatToString(n / 10);
    }
  }

  /** Number of occurrences of c in s. */
  function Count(s: string, c: char): nat {
    if |s| == 0 then 0 else (if s[0] == c then 1 else 0) + Count(s[1..], c)
  }

  lemma {:induction false} CountAppend(a: string, b: string, c: char)
    ensures Count(a + b, c) == Count(a, c) + Count(b, c)
  {
    if |a| > 0 {
      CountAppend(a[1..], b, c);
      assert (a + b)[1..] == a[1..] + b;
    } else {
      assert a + b == b;
    }
  }

  lemma {:induction false} CountAbsent(s: string, c: char)
    requires c !in s
    ensures Count(s, c) == 0
  {
    if |s| > 0 {
      assert forall i :: 0 <= i < |s| - 1 ==> s[1..][i] == s[i + 1];
      CountAbsent(s[1..], c);
    }
  }

  /** s.split(sep): the pieces between the separators, in order; there is always at least one. */
  function Split(s: string, sep: char): (parts: seq<string>)
    ensures |parts| > 0
  {
    if |s| == 0 then [""]
    else
      var rest := Split(s[1..], sep);
      if s[0] == sep then [""] + rest else [[s[0]] + rest[0]] + rest[1..]
  }

  /** A split has one more piece than there are separators, and no piece holds the separator. */
  lemma {:induction false} SplitShape(s: string, sep: char)
    ensures var parts := Split(s, sep);
      |parts| == Count(s, sep) + 1 && forall i :: 0 <= i < |parts| ==> sep !in parts[i]
  {
    if |s| > 0 {
      SplitShape(s[1..], sep);
      var rest := Split(s[1..], sep);
      if s[0] != sep {
        assert sep !in rest[0];
        assert forall i :: 1 <= i < |rest| ==> Split(s, sep)[i] == rest[i];
      }
    }
  }

  /** sep.join(parts). */
  function Join(parts: seq<string>, sep: string): string {
    if |parts| == 0 then ""
    else if |parts| == 1 then parts[0]
    else parts[0] + sep + Join(parts[1..], sep)
  }

  /** A separator-free prefix extends the first piece of the split. */
  lemma {:induction false} SplitPrefix(p: string, t: string, sep: char)
    requires sep !in p
    ensures Split(p + t, sep) == [p + Split(t, sep)[0]] + Split(t, sep)[1..]
  {
    if |p| == 0 {
      assert p + t == t;
      assert p + Split(t, sep)[0] == Split(t, sep)[0];
    } else {
      assert (p + t)[0] == p[0];
      assert (p + t)[1..] == p[1..] + t;
      SplitPrefix(p[1..], t, sep);
      assert [p[0]] + (p[1..] + Split(t, sep)[0]) == p + Split(t, sep)[0];
    }
  }

  /** Joining the pieces of a split with the same separator rebuilds the string. */
  lemma {:induction false} SplitJoin(s: string, sep: char)
    ensures Join(Split(s, sep), [sep]) == s
  {
    if |s| > 0 {
      var rest := Split(s[1..], sep);
      SplitJoin(s[1..], sep);
      if s[0] == sep {
        assert Split(s, sep) == [""] + rest;
        assert ([""] + rest)[1..] == rest;
        assert s == [sep] + s[1..];
      } else {
        var parts := Split(s, sep);
        assert parts == [[s[0]] + rest[0]] + rest[1..];
        if |rest| == 1 {
          assert s == [s[0]] + s[1..];
        } else {
          assert parts[1..] == rest[1..];
          assert Join(rest, [sep]) == rest[0] + [sep] + Join(rest[1..], [sep]);
          assert s == [s[0]] + s[1..];
        }
      }
    }
  }

  /** Splitting a join recovers the pieces, provided none holds the separator. */
  lemma {:induction false} JoinSplit(parts: seq<string>, sep: char)
    requires |parts| > 0
    requires forall i :: 0 <= i < |parts| ==> sep !in parts[i]
    ensures Split(Join(parts, [sep]), sep) == parts
  {
    if |parts| == 1 {
      SplitPrefix(parts[0], "", sep);
      assert parts[0] + "" == parts[0];
    } else {
      JoinSplit(parts[1..], sep);
      JoinSplitStep(parts[0], parts[1..], sep);
      assert parts == [parts[0]] + parts[1..];
    }
  }

  /** One more separator-free piece in front of a join adds one piece in front of its split. */
  lemma JoinSplitStep(p: string, tail: seq<string>, sep: char)
    requires sep !in p && |tail| > 0
    requires Split(Join(tail, [sep]), sep) == tail
    ensures Split(Join([p] + tail, [sep]), sep) == [p] + tail
  {
    var t := Join(tail, [sep]);
    assert ([p] + tail)[1..] == tail;
    assert Join([p] + tail, [sep]) == p + ([sep] + t);
    assert ([sep] + t)[1..] == t;
    assert Split([sep] + t, sep) == [""] + tail;
    SplitPrefix(p, [sep] + t, sep);
    assert ([""] + tail)[0] == "" && ([""] + tail)[1..] == tail;
    assert p + "" == p;
  }

  /** Each string with the character lead in front. */
  function Led(ts: seq<string>, lead: char): (r: seq<string>)
    ensures |r| == |ts| && forall i :: 0 <= i < |ts| ==> r[i] == [lead] + ts[i]
  {
    seq(|ts|, i requires 0 <= i < |ts| => [lead] + ts[i])
  }

  /** Each string but the last followed by the separator sep. */
  function Trailed(ts: seq<string>, sep: char): (r: seq<string>)
    ensures |r| == |ts| && forall i :: 0 <= i < |ts| ==> r[i] == ts[i] + (if i + 1 < |ts| then [sep] else [])
  {
    seq(|ts|, i requires 0 <= i < |ts| => ts[i] + (if i + 1 < |ts| then [sep] else []))
  }

  /** Joining strings that each start with lead is lead, then the rest regrouped around the leads. */
  lemma {:induction false} JoinLed(ts: seq<string>, lead: char, sep: char)
    requires |ts| > 0
    ensures Join(Led(ts, lead), [sep]) == [lead] + Join(Trailed(ts, sep), [lead])
  {
    if |ts| > 1 {
      var t0 := ts[0];
      JoinLed(ts[1..], lead, sep);
      assert Led(ts, lead)[1..] == Led(ts[1..], lead);
      assert Trailed(ts, sep)[1..] == Trailed(ts[1..], sep);
      var x := Join(Trailed(ts[1..], sep), [lead]);
      assert Join(Led(ts, lead), [sep]) == ([lead] + t0) + [sep] + ([lead] + x);
      assert Join(Trailed(ts, sep), [lead]) == (t0 + [sep]) + [lead] + x;
    }
  }

  /**
   * Splitting, at lead, a join of strings that each start with lead: an empty
   * piece, then each string without its lead, followed by the separator that
   * came after it.
   */
  lemma SplitLed(ts: seq<string>, lead: char, sep: char)
    requires lead != sep
    requires forall i :: 0 <= i < |ts| ==> lead !in ts[i]
    ensures Split(Join(Led(ts, lead), [sep]), lead) == [""] + Trailed(ts, sep)
  {
    if |ts| > 0 {
      JoinLed(ts, lead, sep);
      var tr := Trailed(ts, sep);
      var x := Join(tr, [lead]);
      JoinSplit(tr, lead);
      assert ([lead] + x)[1..] == x;
    }
  }
}
