/**
 * The string operations of JavaScript that the fitness engine and the
 * notation helpers rely on: `split(' ')`, `join(' ')`, `slice(0, n)`,
 * `includes`, and the decimal rendering of a non-negative integer in a
 * template literal.
 */
module Text {

  /** `s.split(' ')`: never empty; a token never holds a space; empty tokens are kept. */
  function Split(s: string): (r: seq<string>)
    ensures |r| >= 1
    ensures forall i :: 0 <= i < |r| ==> ' ' !in r[i]
    decreases |s|
  {
    if |s| == 0 then [""]
    else
      var rest := Split(s[1..]);
      if s[0] == ' ' then [""] + rest
      else [[s[0]] + rest[0]] + rest[1..]
  }

  /** `ts.join(' ')`; the empty list joins to the empty string. */
  function Join(ts: seq<string>): string
  {
    if |ts| == 0 then ""
    else if |ts| == 1 then ts[0]
    else ts[0] + " " + Join(ts[1..])
  }

  /** `ts.slice(0, n)` for `n >= 0`: a longer slice than the list is the whole list. */
  function Take<T>(ts: seq<T>, n: nat): (r: seq<T>)
    ensures |r| == if n < |ts| then n else |ts|
    ensures r <= ts
  {
    if n < |ts| then ts[..n] else ts
  }

  predicate SpaceFree(ts: seq<string>)
  {
    forall i :: 0 <= i < |ts| ==> ' ' !in ts[i]
  }

  lemma {:induction false} JoinPrepend(c: string, ts: seq<string>)
    requires |ts| >= 1
    ensures Join([c + ts[0]] + ts[1..]) == c + Join(ts)
  {
    var ts' := [c + ts[0]] + ts[1..];
    if |ts| > 1 {
      assert ts'[1..] == ts[1..];
    }
  }

  /** Joining what `split(' ')` produced gives back the original string. */
  lemma {:induction false} JoinSplit(s: string)
    ensures Join(Split(s)) == s
    decreases |s|
  {
    if |s| > 0 {
      JoinSplit(s[1..]);
      var rest := Split(s[1..]);
      if s[0] == ' ' {
        assert ([""] + rest)[1..] == rest;
        assert s == " " + s[1..];
      } else {
        JoinPrepend([s[0]], rest);
        assert s == [s[0]] + s[1..];
      }
    }
  }

  /** A space-free word followed by a space splits off as one token. */
  lemma {:induction false} SplitWord(t: string, r: string)
    requires ' ' !in t
    ensures Split(t + " " + r) == [t] + Split(r)
    ensures Split(t) == [t]
    decreases |t|
  {
    if |t| == 0 {
      assert "" + " " + r == " " + r;
      assert (" " + r)[1..] == r;
    } else {
      SplitWord(t[1..], r);
      assert (t + " " + r)[1..] == t[1..] + " " + r;
      assert [t[0]] + t[1..] == t;
    }
  }

  /** Splitting a join of space-free tokens gives back the tokens. */
  lemma {:induction false} SplitJoin(ts: seq<string>)
    requires |ts| >= 1 && SpaceFree(ts)
    ensures Split(Join(ts)) == ts
  {
    if |ts| == 1 {
      SplitWord(ts[0], "");
    } else {
      SplitJoin(ts[1..]);
      SplitWord(ts[0], Join(ts[1..]));
      assert [ts[0]] + ts[1..] == ts;
    }
  }

  /** The number of tokens of a join. */
  lemma {:induction false} JoinLength(ts: seq<string>)
    requires SpaceFree(ts)
    ensures |ts| >= 1 ==> |Split(Join(ts))| == |ts|
  {
    if |ts| >= 1 { SplitJoin(ts); }
  }

  /** `needle` stands in `hay` starting at position `i`. */
  predicate OccursAt(hay: string, needle: string, i: nat)
  {
    i + |needle| <= |hay| && hay[i..i + |needle|] == needle
  }

  /** `hay.includes(needle)`: a substring test, anchored nowhere in particular. */
  predicate Includes(hay: string, needle: string)
    decreases |hay|
  {
    needle <= hay || (|hay| > 0 && Includes(hay[1..], needle))
  }

  /** `Includes` holds exactly when the needle occurs at some position of the haystack. */
  lemma {:induction false} IncludesIffOccurs(hay: string, needle: string)
    ensures Includes(hay, needle) <==> exists i: nat :: OccursAt(hay, needle, i)
    decreases |hay|
  {
    if needle <= hay {
      assert OccursAt(hay, needle, 0);
    } else if |hay| == 0 {
      forall i: nat ensures !OccursAt(hay, needle, i) { }
    } else {
      IncludesIffOccurs(hay[1..], needle);
      if Includes(hay[1..], needle) {
        var i: nat :| OccursAt(hay[1..], needle, i);
        assert hay[1..][i..i + |needle|] == hay[i + 1..i + 1 + |needle|];
        assert OccursAt(hay, needle, i + 1);
      } else {
        forall i: nat ensures !OccursAt(hay, needle, i) {
          if 0 < i && i + |needle| <= |hay| {
            assert hay[1..][i - 1..i - 1 + |needle|] == hay[i..i + |needle|];
            assert OccursAt(hay, needle, i) ==> OccursAt(hay[1..], needle, i - 1);
          }
        }
      }
    }
  }

  predicate IsDigit(c: char)
  {
    '0' <= c <= '9'
  }

  function DigitChar(d: nat): (c: char)
    requires d < 10
    ensures IsDigit(c) && c as int - '0' as int == d
  {
    ['0', '1', '2', '3', '4', '5', '6', '7', '8', '9'][d]
  }

  /** `${n}` for a non-negative integer: its decimal digits, no leading zero. */
  function NatToString(n: nat): (s: string)
    ensures |s| >= 1
    ensures forall i :: 0 <= i < |s| ==> IsDigit(s[i])
    ensures s[0] == '0' ==> n == 0
  {
    if n < 10 then [DigitChar(n)] else NatToString(n / 10) + [DigitChar(n % 10)]
  }

  function DigitValue(c: char): (d: nat)
    requires IsDigit(c)
    ensures d < 10
  {
    c as int - '0' as int
  }

  /** The value of a string of decimal digits. */
  function DecimalValue(s: string): nat
    requires forall i :: 0 <= i < |s| ==> IsDigit(s[i])
  {
    if |s| == 0 then 0
    else DecimalValue(s[..|s| - 1]) * 10 + DigitValue(s[|s| - 1])
  }

  /** Reading back the decimal rendering gives the number. */
  lemma {:induction false} DecimalRoundTrip(n: nat)
    ensures DecimalValue(NatToString(n)) == n
  {
    if n >= 10 {
      DecimalRoundTrip(n / 10);
      var s := NatToString(n);
      assert s[..|s| - 1] == NatToString(n / 10);
    }
  }

  /** Different numbers render differently. */
  lemma NatToStringInjective(m: nat, n: nat)
    requires NatToString(m) == NatToString(n)
    ensures m == n
  {
    DecimalRoundTrip(m);
    DecimalRoundTrip(n);
  }
}
