/** The Python string operations the scripts rely on, and resource paths as '/'-joined segments. */
module Text {

  /** Python's `s.startswith(prefix)`: case-sensitive, exact. */
  predicate StartsWith(s: string, prefix: string) {
    |prefix| <= |s| && s[..|prefix|] == prefix
  }

  /** `sub` occurs in `s` starting at index `i`. */
  predicate OccursAt(s: string, sub: string, i: nat) {
    i + |sub| <= |s| && s[i..i + |sub|] == sub
  }

  /** Python's `sub in s` on strings, tried from the left one start position at a time. */
  predicate Contains(s: string, sub: string)
    decreases |s|
  {
    StartsWith(s, sub) || (|s| > 0 && Contains(s[1..], sub))
  }

  /** `Contains` is the substring relation. */
  lemma {:induction false} ContainsIffOccurs(s: string, sub: string)
    ensures Contains(s, sub) <==> exists i: nat :: OccursAt(s, sub, i)
    decreases |s|
  {
    if |s| == 0 {
      if Contains(s, sub) {
        assert OccursAt(s, sub, 0);
      }
      if exists i: nat :: OccursAt(s, sub, i) {
        var i: nat :| OccursAt(s, sub, i);
        assert StartsWith(s, sub);
      }
    } else {
      ContainsIffOccurs(s[1..], sub);
      if Contains(s, sub) {
        if StartsWith(s, sub) {
          assert OccursAt(s, sub, 0);
        } else {
          var i: nat :| OccursAt(s[1..], sub, i);
          assert s[1..][i..i + |sub|] == s[i + 1..i + 1 + |sub|];
          assert OccursAt(s, sub, i + 1);
        }
      }
      if exists i: nat :: OccursAt(s, sub, i) {
        var i: nat :| OccursAt(s, sub, i);
        if i == 0 {
          assert StartsWith(s, sub);
        } else {
          assert s[1..][i - 1..i - 1 + |sub|] == s[i..i + |sub|];
          assert OccursAt(s[1..], sub, i - 1);
        }
      }
    }
  }

  /** Python's `s[:n]`: the first `n` characters, or all of `s` when it is shorter. */
  function Take(s: string, n: nat): (t: string)
    ensures |t| == if |s| <= n then |s| else n
    ensures StartsWith(s, t)
  {
    if |s| <= n then s else s[..n]
  }

  /** What `str(uuid.uuid4())` may hold in a given position: a lower-case hexadecimal digit. */
  predicate IsLowerHex(c: char) {
    '0' <= c <= '9' || 'a' <= c <= 'f'
  }

  predicate NoSlash(s: string) {
    '/' !in s
  }

  /** A resource path: its segments joined with '/'. */
  function Join(segments: seq<string>): string {
    if |segments| == 0 then ""
    else if |segments| == 1 then segments[0]
    else segments[0] + "/" + Join(segments[1..])
  }

  /** The segments of a path: the pieces between its '/' characters. */
  function Split(path: string): (segments: seq<string>)
    ensures |segments| >= 1
  {
    if |path| == 0 then [""]
    else
      var rest := Split(path[1..]);
      if path[0] == '/' then [""] + rest else [[path[0]] + rest[0]] + rest[1..]
  }

  lemma {:induction false} SplitPlain(a: string)
    requires NoSlash(a)
    ensures Split(a) == [a]
  {
    if |a| > 0 {
      SplitPlain(a[1..]);
      assert [a[0]] + a[1..] == a;
    }
  }

  lemma {:induction false} SplitCons(a: string, b: string)
    requires NoSlash(a)
    ensures Split(a + "/" + b) == [a] + Split(b)
  {
    if |a| == 0 {
      assert a + "/" + b == ['/'] + b;
      assert (['/'] + b)[1..] == b;
    } else {
      SplitCons(a[1..], b);
      assert (a + "/" + b)[1..] == a[1..] + "/" + b;
      assert [a[0]] + a[1..] == a;
    }
  }

  /** Splitting a joined path gives its segments back, when no segment holds a '/'. */
  lemma {:induction false} SplitJoin(segments: seq<string>)
    requires |segments| >= 1
    requires forall s <- segments :: NoSlash(s)
    ensures Split(Join(segments)) == segments
  {
    if |segments| == 1 {
      SplitPlain(segments[0]);
    } else {
      SplitJoin(segments[1..]);
      SplitCons(segments[0], Join(segments[1..]));
      assert [segments[0]] + segments[1..] == segments;
    }
  }
}
