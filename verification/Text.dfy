/** The string operations the program relies on, and facts about "run_id:name" keys. */
module Text {
  import opened Bytes

  /** Unicode White_Space, what `trim` removes. */
  predicate White(c: char) {
    || '\U{0009}' <= c <= '\U{000D}' || c == ' ' || c == '\U{0085}' || c == '\U{00A0}' || c == '\U{1680}'
    || '\U{2000}' <= c <= '\U{200A}' || c == '\U{2028}' || c == '\U{2029}' || c == '\U{202F}' || c == '\U{205F}'
    || c == '\U{3000}'
  }

  predicate Blank(s: string) {
    forall i :: 0 <= i < |s| ==> White(s[i])
  }

  function Trim(s: string): (t: string)
    ensures t == [] || (!White(t[0]) && !White(t[|t| - 1]))
    decreases |s|
  {
    if s == [] then []
    else if White(s[0]) then Trim(s[1..])
    else if White(s[|s| - 1]) then Trim(s[..|s| - 1])
    else s
  }

  /** What comes before and after the first `c`. */
  function SplitOnce<T(==)>(s: seq<T>, c: T): (r: Option<(seq<T>, seq<T>)>)
  {
    if s == [] then None
    else if s[0] == c then Some(([], s[1..]))
    else match SplitOnce(s[1..], c)
         case Some((a, b)) => Some(([s[0]] + a, b))
         case None => None
  }

  /** `SplitOnce` undoes joining when the left part is free of the separator, and finds nothing without one. */
  lemma {:induction false} SplitJoin<T>(a: seq<T>, c: T, b: seq<T>)
    requires c !in a
    ensures SplitOnce(a + [c] + b, c) == Some((a, b))
    decreases |a|
  {
    var s := a + [c] + b;
    if a == [] {
      assert s[1..] == b;
    } else {
      assert s[1..] == a[1..] + [c] + b;
      SplitJoin(a[1..], c, b);
      assert [a[0]] + a[1..] == a;
    }
  }

  lemma {:induction false} SplitSound<T>(s: seq<T>, c: T)
    ensures match SplitOnce(s, c)
            case Some((a, b)) => s == a + [c] + b && c !in a
            case None => c !in s
  {
    if s != [] && s[0] != c {
      SplitSound(s[1..], c);
    }
  }

  predicate EndsWith(s: string, t: string) {
    |t| <= |s| && s[|s| - |t|..] == t
  }

  /** The registry key of a proxy. */
  function Key(runId: string, name: string): string {
    runId + [':'] + name
  }

  /** Prefix clean-up by run touches exactly the keys of that run. */
  lemma PrefixIsRun(run: string, r: string, n: string)
    requires ':' !in run && ':' !in r
    ensures run + [':'] <= Key(r, n) <==> r == run
  {
    var k := Key(r, n);
    if run + [':'] <= k {
      var rest := k[|run| + 1..];
      assert k == run + [':'] + rest;
      SplitJoin(run, ':', rest);
      SplitJoin(r, ':', n);
    }
    assert k == r + [':'] + n && r + [':'] <= k;
  }

  /**
   * Suffix eviction by name: a key with suffix ":name" belongs to that name, or to a name that itself ends in
   * ":name". For names free of ':' the match is exact.
   */
  lemma SuffixIsName(name: string, r: string, n: string)
    requires ':' !in r
    ensures EndsWith(Key(r, n), [':'] + name) <==> n == name || EndsWith(n, [':'] + name)
    ensures ':' !in n ==> (EndsWith(Key(r, n), [':'] + name) <==> n == name)
  {
    var k, t := Key(r, n), [':'] + name;
    if EndsWith(k, t) {
      var at := |k| - |t|;
      assert k[at] == k[at..][0] == ':';
      assert forall i :: 0 <= i < |r| ==> k[i] == r[i];
      assert k[|r| + 1..] == n;
      if at == |r| {
        assert k[at..] == [':'] + n;
        assert n == ([':'] + n)[1..] == t[1..] == name;
      } else {
        assert n[at - |r| - 1..] == k[at..];
        assert n[at - |r| - 1] == ':';
      }
    }
    if n == name {
      assert k[|k| - |t|..] == t;
    } else if EndsWith(n, t) {
      assert k[|k| - |t|..] == n[|n| - |t|..];
      assert n[|n| - |t|] == n[|n| - |t|..][0] == ':';
    }
  }
}
