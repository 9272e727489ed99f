// Shared value types and the few string operations the agent takes from Go's strings package.

module Base {
  datatype Option<+T> = None | Some(value: T)

  function GetOr<K, V>(m: map<K, V>, k: K, default: V): V {
    if k in m then m[k] else default
  }

  function Find<K, V>(m: map<K, V>, k: K): Option<V> {
    if k in m then Some(m[k]) else None
  }
}

module Text {
  import opened Base

  /** strings.HasPrefix */
  predicate HasPrefix(s: string, prefix: string) {
    prefix <= s
  }

  /** A prefix is what a string starts with. */
  lemma HasPrefixIff(s: string, prefix: string)
    ensures HasPrefix(s, prefix) <==> exists rest :: s == prefix + rest
  {
    if HasPrefix(s, prefix) {
      assert s == prefix + s[|prefix|..];
    }
  }

  /** strings.ToLower, on ASCII. */
  function LowerChar(c: char): (r: char)
    ensures 'A' <= c <= 'Z' ==> r as int == c as int + 32
    ensures !('A' <= c <= 'Z') ==> r == c
  {
    if 'A' <= c <= 'Z' then (c as int + 32) as char else c
  }

  function ToLower(s: string): (r: string)
    ensures |r| == |s|
    ensures forall i :: 0 <= i < |s| ==> r[i] == LowerChar(s[i])
  {
    seq(|s|, i requires 0 <= i < |s| => LowerChar(s[i]))
  }

  /** strings.ReplaceAll(s, string(c), "") */
  function Without(s: string, c: char): (r: string)
    ensures c !in r
    ensures forall d :: d != c ==> (d in r <==> d in s)
    ensures c !in s ==> r == s
  {
    if s == [] then [] else (if s[0] == c then [] else [s[0]]) + Without(s[1..], c)
  }

  /** strings.Cut at the first occurrence of the separator. */
  function Cut(s: string, c: char): (r: Option<(string, string)>)
    ensures r.None? <==> c !in s
    ensures r.Some? ==> c !in r.value.0 && s == r.value.0 + [c] + r.value.1
  {
    if s == [] then None
    else if s[0] == c then Some(([], s[1..]))
    else
      match Cut(s[1..], c)
      case None => None
      case Some((before, after)) => Some(([s[0]] + before, after))
  }

  // Cut undoes a join whose first half is free of the separator.
  lemma {:induction false} CutJoined(a: string, c: char, b: string)
    requires c !in a
    ensures Cut(a + [c] + b, c) == Some((a, b))
  {
    if a == [] {
      assert a + [c] + b == [c] + b;
    } else {
      assert (a + [c] + b)[1..] == a[1..] + [c] + b;
      CutJoined(a[1..], c, b);
      assert [a[0]] + a[1..] == a;
    }
  }

  ghost predicate OccursTwice(c: char, s: string) {
    exists i, j :: 0 <= i < j < |s| && s[i] == c && s[j] == c
  }

  // What Cut leaves after the separator has it again iff it occurs twice.
  lemma CutTwice(s: string, c: char)
    requires c in s
    ensures c in Cut(s, c).value.1 <==> OccursTwice(c, s)
  {
    var (before, rest) := Cut(s, c).value;
    assert s[|before|] == c && forall i :: 0 <= i < |before| ==> s[i] == before[i];
    assert forall i :: |before| < i < |s| ==> s[i] == rest[i - |before| - 1];
    if c in rest {
      var k :| 0 <= k < |rest| && rest[k] == c;
      assert s[|before| + 1 + k] == c;
    }
  }
}
