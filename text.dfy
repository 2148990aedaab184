/**
 * The .NET string operations the cache engine relies on: `string.IsNullOrWhiteSpace`,
 * `string.Join`, `string.Split` on one character and an ordinal case-insensitive comparison.
 */
module Text {
  import opened Wrappers

  /** A .NET string reference: `None` is null. */
  type NStr = Option<string>

  /** The fixed set of characters the model treats as white space. */
  predicate IsWhiteSpace(c: char) {
    c == ' ' || c == '\t' || c == '\n' || c == '\r' || c == '\U{000B}' || c == '\U{000C}'
    || c == '\U{0085}' || c == '\U{00A0}'
  }

  /** Every character is white space (the empty string included). */
  predicate IsBlank(s: string) {
    forall i :: 0 <= i < |s| ==> IsWhiteSpace(s[i])
  }

  /** `string.IsNullOrWhiteSpace`. */
  predicate IsNullOrWhiteSpace(s: NStr) {
    s.None? || IsBlank(s.value)
  }

  /** The negation, used for "this claim can be used". */
  predicate Usable(s: NStr) {
    !IsNullOrWhiteSpace(s)
  }

  lemma BlankConcat(a: string, b: string)
    ensures IsBlank(a + b) <==> IsBlank(a) && IsBlank(b)
  {
    if IsBlank(a) && IsBlank(b) {
      forall i | 0 <= i < |a + b| ensures IsWhiteSpace((a + b)[i]) {
        if i < |a| { assert (a + b)[i] == a[i]; } else { assert (a + b)[i] == b[i - |a|]; }
      }
    }
    if IsBlank(a + b) {
      forall i | 0 <= i < |a| ensures IsWhiteSpace(a[i]) { assert a[i] == (a + b)[i]; }
      forall i | 0 <= i < |b| ensures IsWhiteSpace(b[i]) { assert b[i] == (a + b)[|a| + i]; }
    }
  }

  /** `string.Join(separator, parts)`. */
  function Join(separator: string, parts: seq<string>): string
  {
    if |parts| == 0 then ""
    else if |parts| == 1 then parts[0]
    else parts[0] + separator + Join(separator, parts[1..])
  }

  /**
   * A target joined with a single space is blank exactly when every scope is blank:
   * the separator adds no usable character, and an empty scope list joins to "".
   */
  lemma {:induction false} JoinWithSpaceBlank(parts: seq<string>)
    ensures IsBlank(Join(" ", parts)) <==> forall i :: 0 <= i < |parts| ==> IsBlank(parts[i])
  {
    if |parts| > 1 {
      JoinWithSpaceBlank(parts[1..]);
      BlankConcat(parts[0], " ");
      BlankConcat(parts[0] + " ", Join(" ", parts[1..]));
      assert IsWhiteSpace(" "[0]);
      if forall i :: 1 <= i < |parts| ==> IsBlank(parts[i]) {
        forall i | 0 <= i < |parts| - 1 ensures IsBlank(parts[1..][i]) { assert parts[1..][i] == parts[i + 1]; }
      }
      if forall i :: 0 <= i < |parts| - 1 ==> IsBlank(parts[1..][i]) {
        forall i | 1 <= i < |parts| ensures IsBlank(parts[i]) { assert parts[i] == parts[1..][i - 1]; }
      }
    }
  }

  /** `s.Split(d)`: the pieces between occurrences of `d`; never empty. */
  function Split(s: string, d: char): (r: seq<string>)
    ensures |r| >= 1
    ensures forall k :: 0 <= k < |r| ==> d !in r[k]
  {
    if |s| == 0 then [""]
    else
      var rest := Split(s[1..], d);
      if s[0] == d then [""] + rest
      else [[s[0]] + rest[0]] + rest[1..]
  }

  lemma JoinCons(separator: string, head: string, tail: seq<string>)
    ensures Join(separator, [head] + tail) == if |tail| == 0 then head else head + separator + Join(separator, tail)
  {
    assert ([head] + tail)[1..] == tail;
  }

  /** Prefixing the first piece with a character prefixes the joined string with it. */
  lemma JoinExtendFirst(separator: string, c: char, parts: seq<string>)
    requires |parts| >= 1
    ensures Join(separator, [[c] + parts[0]] + parts[1..]) == [c] + Join(separator, parts)
  {
    var head, tail := parts[0], parts[1..];
    assert [head] + tail == parts;
    JoinCons(separator, [c] + head, tail);
    JoinCons(separator, head, tail);
    if |tail| > 0 {
      var joined := Join(separator, tail);
      assert [c] + head + separator + joined == [c] + (head + separator + joined);
    }
  }

  /** Joining the pieces of a split back with the delimiter gives the original string. */
  lemma {:induction false} SplitJoinRoundTrip(s: string, d: char)
    ensures Join([d], Split(s, d)) == s
  {
    if |s| > 0 {
      var rest := Split(s[1..], d);
      SplitJoinRoundTrip(s[1..], d);
      if s[0] == d {
        JoinCons([d], "", rest);
      } else {
        JoinExtendFirst([d], s[0], rest);
      }
      assert [s[0]] + s[1..] == s;
    }
  }

  /** A prefix free of the delimiter becomes the start of the first piece. */
  lemma {:induction false} SplitPrefix(a: string, t: string, d: char)
    requires d !in a
    ensures Split(a + t, d) == [a + Split(t, d)[0]] + Split(t, d)[1..]
  {
    if |a| > 0 {
      SplitPrefix(a[1..], t, d);
      assert (a + t)[1..] == a[1..] + t;
      assert (a + t)[0] == a[0];
      assert [a[0]] + (a[1..] + Split(t, d)[0]) == a + Split(t, d)[0];
    } else {
      assert a + t == t;
      assert a + Split(t, d)[0] == Split(t, d)[0];
      assert [Split(t, d)[0]] + Split(t, d)[1..] == Split(t, d);
    }
  }

  lemma SplitAtDelimiter(t: string, d: char)
    ensures Split([d] + t, d) == [""] + Split(t, d)
  {
    assert ([d] + t)[1..] == t;
  }

  /** ASCII upper-casing, the only case folding the model performs. */
  function ToUpperAscii(c: char): char {
    if 'a' <= c <= 'z' then (c as int - 32) as char else c
  }

  /** `string.Compare(a, b, StringComparison.OrdinalIgnoreCase) == 0`, with ASCII folding. */
  predicate EqualsIgnoreCase(a: string, b: string) {
    |a| == |b| && forall i :: 0 <= i < |a| ==> ToUpperAscii(a[i]) == ToUpperAscii(b[i])
  }
}
