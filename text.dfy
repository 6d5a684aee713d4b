/**
 The two string operations the command loop applies to every line it reads:
 trimming surrounding white space and splitting on single spaces, with the
 behaviour of Go's `strings.TrimSpace` and `strings.Split` (a string is a
 sequence of Unicode scalar values here).
 */
module Text {

  /** White space as Go's `unicode.IsSpace` defines it. */
  predicate IsSpace(c: char) {
    || c == ' ' || c == '\t' || c == '\n' || c == '\U{000B}' || c == '\U{000C}' || c == '\r'
    || c == '\U{0085}' || c == '\U{00A0}' || c == '\U{1680}'
    || ('\U{2000}' <= c <= '\U{200A}')
    || c == '\U{2028}' || c == '\U{2029}' || c == '\U{202F}' || c == '\U{205F}' || c == '\U{3000}'
  }

  predicate AllSpace(s: string) {
    forall k :: 0 <= k < |s| ==> IsSpace(s[k])
  }

  /** Neither begins nor ends with white space. */
  predicate Trimmed(s: string) {
    s == [] || (!IsSpace(s[0]) && !IsSpace(s[|s| - 1]))
  }

  /** Drops the leading white space. */
  function TrimLeft(s: string): string {
    if s != [] && IsSpace(s[0]) then TrimLeft(s[1..]) else s
  }

  /** Drops the trailing white space. */
  function TrimRight(s: string): string {
    if s != [] && IsSpace(s[|s| - 1]) then TrimRight(s[..|s| - 1]) else s
  }

  /**
   `TrimLeft` drops the longest all-space prefix: what it keeps is a suffix,
   what it drops is white space, and what it keeps does not begin with any.
   */
  lemma {:induction false} TrimLeftDrops(s: string)
    ensures var r := TrimLeft(s);
      && |r| <= |s| && r == s[|s| - |r|..]
      && AllSpace(s[..|s| - |r|])
      && (r == [] || !IsSpace(r[0]))
  {
    if s != [] && IsSpace(s[0]) {
      TrimLeftDrops(s[1..]);
      var r := TrimLeft(s);
      assert s[1..][|s| - 1 - |r|..] == s[|s| - |r|..];
      assert forall k :: 1 <= k < |s| - |r| ==> s[k] == s[1..][..|s| - 1 - |r|][k - 1];
    }
  }

  /**
   `TrimRight` drops the longest all-space suffix: what it keeps is a prefix,
   what it drops is white space, and what it keeps does not end with any.
   */
  lemma {:induction false} TrimRightDrops(s: string)
    ensures var r := TrimRight(s);
      && |r| <= |s| && r == s[..|r|]
      && AllSpace(s[|r|..])
      && (r == [] || !IsSpace(r[|r| - 1]))
  {
    if s != [] && IsSpace(s[|s| - 1]) {
      var shorter := s[..|s| - 1];
      TrimRightDrops(shorter);
      var r := TrimRight(s);
      assert shorter[..|r|] == s[..|r|];
      assert forall k :: |r| <= k < |s| - 1 ==> s[k] == shorter[|r|..][k - |r|];
    }
  }

  /** Go's `strings.TrimSpace`. */
  function TrimSpace(s: string): string {
    TrimRight(TrimLeft(s))
  }

  /** A trimmed string neither begins nor ends with white space, and is no longer than the original. */
  lemma TrimSpaceTrims(s: string)
    ensures Trimmed(TrimSpace(s)) && |TrimSpace(s)| <= |s|
  {
    TrimLeftDrops(s);
    TrimRightDrops(TrimLeft(s));
  }

  /** Go's `strings.Split(s, string(sep))`: the pieces between separators, one more than there are separators. */
  function Split(s: string, sep: char): (r: seq<string>)
    ensures |r| >= 1
    ensures forall i :: 0 <= i < |r| ==> sep !in r[i]
  {
    if s == [] then [""]
    else
      var rest := Split(s[1..], sep);
      if s[0] == sep then [""] + rest else [[s[0]] + rest[0]] + rest[1..]
  }

  /** Go's `strings.Join(parts, string(sep))`, the inverse of `Split`. */
  function Join(parts: seq<string>, sep: char): string {
    if parts == [] then ""
    else if |parts| == 1 then parts[0]
    else parts[0] + [sep] + Join(parts[1..], sep)
  }

  /** `TrimLeft` removes exactly an all-space prefix in front of a non-space. */
  lemma {:induction false} TrimLeftOf(pre: string, rest: string)
    requires AllSpace(pre) && (rest == [] || !IsSpace(rest[0]))
    ensures TrimLeft(pre + rest) == rest
  {
    if pre == [] {
      assert pre + rest == rest;
    } else {
      assert (pre + rest)[1..] == pre[1..] + rest;
      TrimLeftOf(pre[1..], rest);
    }
  }

  /** `TrimRight` removes exactly an all-space suffix behind a non-space. */
  lemma {:induction false} TrimRightOf(rest: string, post: string)
    requires AllSpace(post) && (rest == [] || !IsSpace(rest[|rest| - 1]))
    ensures TrimRight(rest + post) == rest
  {
    if post == [] {
      assert rest + post == rest;
    } else {
      var shorter := post[..|post| - 1];
      assert (rest + post)[..|rest + post| - 1] == rest + shorter;
      TrimRightOf(rest, shorter);
    }
  }

  /** Trimming removes exactly the white space around a trimmed middle. */
  lemma TrimSpaceOf(pre: string, mid: string, post: string)
    requires AllSpace(pre) && AllSpace(post) && Trimmed(mid)
    ensures TrimSpace(pre + mid + post) == mid
  {
    if mid == [] {
      assert pre + mid + post == (pre + post) + [];
      TrimLeftOf(pre + post, []);
    } else {
      assert pre + mid + post == pre + (mid + post);
      TrimLeftOf(pre, mid + post);
      TrimRightOf(mid, post);
    }
  }

  /** Joining the pieces gives back the string that was split. */
  lemma {:induction false} JoinSplit(s: string, sep: char)
    ensures Join(Split(s, sep), sep) == s
  {
    if s != [] {
      var rest := Split(s[1..], sep);
      JoinSplit(s[1..], sep);
      if s[0] == sep {
        assert Split(s, sep)[1..] == rest;
      } else if |rest| == 1 {
        assert Split(s, sep) == [[s[0]] + rest[0]];
      } else {
        var parts := Split(s, sep);
        assert parts[1..] == rest[1..];
        assert Join(rest, sep) == rest[0] + [sep] + Join(rest[1..], sep);
        assert [s[0]] + s[1..] == s;
      }
    }
  }

  /** A word without the separator sticks to the front of the first piece. */
  lemma {:induction false} SplitPrefix(w: string, tail: string, sep: char)
    requires sep !in w
    ensures var t := Split(tail, sep); Split(w + tail, sep) == [w + t[0]] + t[1..]
  {
    if w != [] {
      assert (w + tail)[1..] == w[1..] + tail;
      SplitPrefix(w[1..], tail, sep);
      assert [w[0]] + (w[1..] + Split(tail, sep)[0]) == w + Split(tail, sep)[0];
    } else {
      var t := Split(tail, sep);
      assert w + tail == tail && w + t[0] == t[0];
      assert [t[0]] + t[1..] == t;
    }
  }

  /** Splitting a join of separator-free pieces gives back the pieces. */
  lemma {:induction false} SplitJoin(parts: seq<string>, sep: char)
    requires |parts| >= 1
    requires forall i :: 0 <= i < |parts| ==> sep !in parts[i]
    ensures Split(Join(parts, sep), sep) == parts
  {
    if |parts| == 1 {
      SplitPrefix(parts[0], "", sep);
      assert parts[0] + "" == parts[0];
    } else {
      var rest := Join(parts[1..], sep);
      SplitJoin(parts[1..], sep);
      SplitPrefix(parts[0], [sep] + rest, sep);
      assert ([sep] + rest)[1..] == rest;
      assert Split([sep] + rest, sep) == [""] + parts[1..];
      assert parts[0] + "" == parts[0];
      assert parts[0] + [sep] + rest == parts[0] + ([sep] + rest);
    }
  }

  /** A string splits into a single piece exactly when it holds no separator. */
  lemma SplitSingle(s: string, sep: char)
    ensures |Split(s, sep)| == 1 <==> sep !in s
  {
    if sep !in s {
      SplitJoin([s], sep);
    } else {
      JoinSplit(s, sep);
    }
  }
}
