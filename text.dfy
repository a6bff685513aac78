/** Strings as the generator builds them: pieces written one after another to a
    text stream, lists joined with a separator, decimal numbers and ASCII
    upper-casing. */
module Text {

  /** The text produced by writing the chunks to a stream in order. */
  function Concat(chunks: seq<string>): string
  {
    if |chunks| == 0 then "" else Concat(chunks[..|chunks| - 1]) + chunks[|chunks| - 1]
  }

  /** `xs` joined with `sep` between neighbours, as QStringList::join does. */
  function Join(xs: seq<string>, sep: string): string
  {
    if |xs| == 0 then ""
    else if |xs| == 1 then xs[0]
    else Join(xs[..|xs| - 1], sep) + sep + xs[|xs| - 1]
  }

  /** The chunks `xs[0], sep, xs[1], sep, ..., xs[n-1]`: one separator between
      each pair of neighbours, none before the first item and none after the last. */
  function Interleaved(xs: seq<string>, sep: string): seq<string>
  {
    if |xs| == 0 then []
    else seq(2 * |xs| - 1, i requires 0 <= i < 2 * |xs| - 1 => if i % 2 == 0 then xs[i / 2] else sep)
  }

  /** `t` is found in `s` starting at index `k`. */
  ghost predicate OccursAt(t: string, s: string, k: int)
  {
    0 <= k && k + |t| <= |s| && s[k..k + |t|] == t
  }

  /** `t1` is found in `s`, and later, not overlapping it, `t2`. */
  ghost predicate Precedes(t1: string, t2: string, s: string)
  {
    exists k1, k2 :: OccursAt(t1, s, k1) && OccursAt(t2, s, k2) && k1 + |t1| <= k2
  }

  predicate StartsWith(s: string, prefix: string)
  {
    |prefix| <= |s| && s[..|prefix|] == prefix
  }

  predicate EndsWith(s: string, suffix: string)
  {
    |suffix| <= |s| && s[|s| - |suffix|..] == suffix
  }

  lemma AppendAssoc(a: string, b: string, c: string)
    ensures (a + b) + c == a + (b + c)
  {
  }

  lemma ConcatAppend(chunks: seq<string>, c: string)
    ensures Concat(chunks + [c]) == Concat(chunks) + c
  {
    assert (chunks + [c])[..|chunks|] == chunks;
  }

  lemma {:induction false} ConcatSplit(chunks: seq<string>, i: nat)
    requires i <= |chunks|
    ensures Concat(chunks) == Concat(chunks[..i]) + Concat(chunks[i..])
    decreases |chunks|
  {
    if i == |chunks| {
      assert chunks[..i] == chunks;
      assert chunks[i..] == [];
    } else {
      ConcatSplit(chunks[..|chunks| - 1], i);
      ConcatSplitStep(chunks, i);
    }
  }

  /** The step of ConcatSplit: from the split of all chunks but the last to the
      split of all of them. */
  lemma ConcatSplitStep(chunks: seq<string>, i: nat)
    requires i < |chunks|
    requires var init := chunks[..|chunks| - 1]; Concat(init) == Concat(init[..i]) + Concat(init[i..])
    ensures Concat(chunks) == Concat(chunks[..i]) + Concat(chunks[i..])
  {
    var n := |chunks|;
    var init := chunks[..n - 1];
    assert init[..i] == chunks[..i];
    assert chunks[i..] == init[i..] + [chunks[n - 1]];
    ConcatAppend(init[i..], chunks[n - 1]);
    assert Concat(chunks) == Concat(init) + chunks[n - 1];
    AppendAssoc(Concat(init[..i]), Concat(init[i..]), chunks[n - 1]);
  }

  /** The text of a non-empty chunk list starts with its first chunk. */
  lemma ConcatCons(chunks: seq<string>)
    requires |chunks| > 0
    ensures Concat(chunks) == chunks[0] + Concat(chunks[1..])
  {
    ConcatSplit(chunks, 1);
    assert chunks[..1] == [chunks[0]];
    assert [chunks[0]][..0] == [];
    assert Concat([chunks[0]]) == chunks[0];
  }

  /** The text of a non-empty chunk list ends with its last chunk. */
  lemma ConcatEndsWithLast(chunks: seq<string>)
    requires |chunks| > 0
    ensures EndsWith(Concat(chunks), chunks[|chunks| - 1])
  {
    var init, last := Concat(chunks[..|chunks| - 1]), chunks[|chunks| - 1];
    assert (init + last)[|init + last| - |last|..] == last;
  }

  /** The text of a non-empty chunk list starts with its first chunk. */
  lemma ConcatStartsWithFirst(chunks: seq<string>)
    requires |chunks| > 0
    ensures StartsWith(Concat(chunks), chunks[0])
  {
    ConcatCons(chunks);
    var rest := Concat(chunks[1..]);
    assert (chunks[0] + rest)[..|chunks[0]|] == chunks[0];
  }

  lemma OccursInMiddle(a: string, t: string, b: string)
    ensures OccursAt(t, a + t + b, |a|)
  {
    assert (a + t + b)[|a|..|a| + |t|] == t;
  }

  /** Chunk `i` is found in the stream's text right after the chunks before it. */
  lemma ChunkOccursAt(chunks: seq<string>, i: nat)
    requires i < |chunks|
    ensures OccursAt(chunks[i], Concat(chunks), |Concat(chunks[..i])|)
  {
    ConcatSplit(chunks, i);
    ConcatSplit(chunks[i..], 1);
    assert chunks[i..][..1] == [chunks[i]];
    assert [chunks[i]][..0] == [];
    assert Concat([chunks[i]]) == chunks[i];
    OccursInMiddle(Concat(chunks[..i]), chunks[i], Concat(chunks[i..][1..]));
  }

  /** An earlier chunk is found in the stream's text before a later one. */
  lemma ChunksPrecede(chunks: seq<string>, i: nat, j: nat)
    requires i < j < |chunks|
    ensures Precedes(chunks[i], chunks[j], Concat(chunks))
  {
    ChunkOccursAt(chunks, i);
    ChunkOccursAt(chunks, j);
    var k1 := |Concat(chunks[..i])|;
    var k2 := |Concat(chunks[..j])|;
    ConcatPrefixLength(chunks, i + 1, j);
    ConcatAppend(chunks[..i], chunks[i]);
    assert chunks[..i] + [chunks[i]] == chunks[..i + 1];
    assert k1 + |chunks[i]| <= k2;
    assert OccursAt(chunks[i], Concat(chunks), k1) && OccursAt(chunks[j], Concat(chunks), k2);
  }

  lemma ConcatPrefixLength(chunks: seq<string>, i: nat, j: nat)
    requires i <= j <= |chunks|
    ensures |Concat(chunks[..i])| <= |Concat(chunks[..j])|
  {
    var prefix := chunks[..j];
    ConcatSplit(prefix, i);
    assert prefix[..i] == chunks[..i];
  }

  lemma OccursAtExtend(t: string, s: string, k: int, b: string)
    requires OccursAt(t, s, k)
    ensures OccursAt(t, s + b, k)
  {
    assert (s + b)[k..k + |t|] == s[k..k + |t|];
  }

  lemma EndsWithAppend(a: string, s: string)
    ensures EndsWith(a + s, s)
  {
    assert (a + s)[|a + s| - |s|..] == s;
  }

  lemma PrecedesExtend(t1: string, t2: string, s: string, b: string)
    requires Precedes(t1, t2, s)
    ensures Precedes(t1, t2, s + b)
  {
    var k1, k2 :| OccursAt(t1, s, k1) && OccursAt(t2, s, k2) && k1 + |t1| <= k2;
    OccursAtExtend(t1, s, k1, b);
    OccursAtExtend(t2, s, k2, b);
  }

  /** Joining is exactly the concatenation of the items interleaved with the
      separator (see InterleavedShape for where the separators sit). */
  lemma {:induction false} JoinIsInterleaving(xs: seq<string>, sep: string)
    ensures Join(xs, sep) == Concat(Interleaved(xs, sep))
  {
    var n := |xs|;
    if n == 1 {
      assert Interleaved(xs, sep) == [xs[0]];
      assert [xs[0]][..0] == [];
    } else if n > 1 {
      var init := xs[..n - 1];
      JoinIsInterleaving(init, sep);
      InterleavedAppend(xs, sep);
      var front := Interleaved(init, sep);
      ConcatAppend(front, sep);
      ConcatAppend(front + [sep], xs[n - 1]);
    }
  }

  /** n items are interleaved with n - 1 separators: the items in order at the
      even positions, a separator at every odd position, so none comes before
      the first item or after the last. */
  lemma InterleavedShape(xs: seq<string>, sep: string)
    ensures |xs| > 0 ==> |Interleaved(xs, sep)| == 2 * |xs| - 1
    ensures forall i :: 0 <= i < |xs| ==> Interleaved(xs, sep)[2 * i] == xs[i]
    ensures forall i :: 0 <= i < |xs| - 1 ==> Interleaved(xs, sep)[2 * i + 1] == sep
  {
    forall i | 0 <= i < |xs|
      ensures Interleaved(xs, sep)[2 * i] == xs[i]
    {
      assert (2 * i) % 2 == 0 && (2 * i) / 2 == i;
    }
    forall i | 0 <= i < |xs| - 1
      ensures Interleaved(xs, sep)[2 * i + 1] == sep
    {
      assert (2 * i + 1) % 2 == 1;
    }
  }

  lemma InterleavedAppend(xs: seq<string>, sep: string)
    requires |xs| > 1
    ensures Interleaved(xs, sep) == Interleaved(xs[..|xs| - 1], sep) + [sep] + [xs[|xs| - 1]]
  {
    var n := |xs|;
    var init := xs[..n - 1];
    var a := Interleaved(xs, sep);
    var b := Interleaved(init, sep) + [sep] + [xs[n - 1]];
    assert |a| == |b|;
    forall i | 0 <= i < |a|
      ensures a[i] == b[i]
    {
      if i < 2 * n - 3 {
        assert b[i] == Interleaved(init, sep)[i];
      }
    }
  }

  /** Appending an item to a non-empty list adds one separator and the item. */
  lemma JoinAppend(xs: seq<string>, x: string, sep: string)
    requires |xs| > 0
    ensures Join(xs + [x], sep) == Join(xs, sep) + sep + x
  {
    assert (xs + [x])[..|xs|] == xs;
  }

  /** Joining short lists written out. */
  lemma JoinFew(a: string, b: string, c: string, d: string, e: string, sep: string)
    ensures Join([a, b], sep) == a + sep + b
    ensures Join([a, b, c], sep) == a + sep + b + sep + c
    ensures Join([a, b, c, d], sep) == a + sep + b + sep + c + sep + d
    ensures Join([a, b, c, d, e], sep) == a + sep + b + sep + c + sep + d + sep + e
  {
    assert [a, b][..1] == [a];
    assert [a, b, c][..2] == [a, b];
    assert [a, b, c, d][..3] == [a, b, c];
    assert [a, b, c, d, e][..4] == [a, b, c, d];
  }

  // ----- decimal numbers, as QTextStream writes an int -----

  function DigitChar(d: nat): char
    requires d < 10
  {
    ('0' as int + d) as char
  }

  /** The decimal digits of `n`, most significant first, without leading zeros. */
  function Digits(n: nat): (r: string)
    ensures |r| > 0
    ensures forall i :: 0 <= i < |r| ==> '0' <= r[i] <= '9'
    ensures r[0] == '0' ==> n == 0
  {
    if n < 10 then [DigitChar(n)] else Digits(n / 10) + [DigitChar(n % 10)]
  }

  /** An int in decimal, with a leading minus for a negative value. */
  function Decimal(n: int): string
  {
    if n < 0 then "-" + Digits(-n) else Digits(n)
  }

  function DigitsValue(s: string): int
  {
    if |s| == 0 then 0 else DigitsValue(s[..|s| - 1]) * 10 + (s[|s| - 1] as int - '0' as int)
  }

  /** The number a decimal text stands for; the inverse of Decimal. */
  function DecimalValue(s: string): int
  {
    if |s| > 0 && s[0] == '-' then -DigitsValue(s[1..]) else DigitsValue(s)
  }

  lemma {:induction false} DigitsRoundTrip(n: nat)
    ensures DigitsValue(Digits(n)) == n
  {
    if n >= 10 {
      DigitsRoundTrip(n / 10);
      var s := Digits(n);
      assert s[..|s| - 1] == Digits(n / 10);
    }
  }

  /** Decimal loses nothing: the number can be read back from its text. */
  lemma DecimalRoundTrip(n: int)
    ensures DecimalValue(Decimal(n)) == n
  {
    if n < 0 {
      DigitsRoundTrip(-n);
      assert ("-" + Digits(-n))[1..] == Digits(-n);
    } else {
      DigitsRoundTrip(n);
    }
  }

  // ----- ASCII upper case -----

  function UpperChar(c: char): char
  {
    if 'a' <= c <= 'z' then (c as int - 32) as char else c
  }

  function AsciiUpper(s: string): string
  {
    seq(|s|, i requires 0 <= i < |s| => UpperChar(s[i]))
  }

  predicate HasNoLowerCase(s: string)
  {
    forall i :: 0 <= i < |s| ==> !('a' <= s[i] <= 'z')
  }

  /** Upper-casing keeps the length, leaves every character that is not a
      lower-case letter alone, leaves no lower-case letter behind, and is
      idempotent. */
  lemma AsciiUpperProperties(s: string)
    ensures |AsciiUpper(s)| == |s|
    ensures HasNoLowerCase(AsciiUpper(s))
    ensures forall i :: 0 <= i < |s| && !('a' <= s[i] <= 'z') ==> AsciiUpper(s)[i] == s[i]
    ensures AsciiUpper(AsciiUpper(s)) == AsciiUpper(s)
  {
  }

  /** Upper-casing a concatenation upper-cases each part. */
  lemma AsciiUpperConcat(a: string, b: string)
    ensures AsciiUpper(a + b) == AsciiUpper(a) + AsciiUpper(b)
  {
  }
}
