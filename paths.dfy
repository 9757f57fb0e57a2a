/** URL paths as the generators build them: a sequence of segments, each written as "/" + segment. */
module Paths {

  /** "/" + s1 + "/" + s2 + ... ; the empty sequence gives "". */
  function JoinPath(segments: seq<string>): (p: string)
    ensures segments != [] ==> |p| > 0 && p[0] == '/'
  {
    if segments == [] then ""
    else JoinPath(segments[..|segments| - 1]) + "/" + segments[|segments| - 1]
  }

  /** Index of the last '/' in s, or -1 when there is none. */
  function LastSlash(s: string): (k: int)
    ensures -1 <= k < |s|
    ensures k >= 0 ==> s[k] == '/' && '/' !in s[k + 1..]
    ensures k == -1 ==> '/' !in s
  {
    if s == [] then -1
    else if s[|s| - 1] == '/' then |s| - 1
    else
      var k := LastSlash(s[..|s| - 1]);
      assert s[k + 1..] == s[..|s| - 1][k + 1..] + [s[|s| - 1]];
      k
  }

  /** Splits a path back into its segments at every '/'. */
  function SplitPath(p: string): seq<string>
    decreases |p|
  {
    if p == [] then []
    else
      var k := LastSlash(p);
      if k < 0 then [p] else SplitPath(p[..k]) + [p[k + 1..]]
  }

  predicate NoSlashIn(segments: seq<string>)
  {
    forall i :: 0 <= i < |segments| ==> '/' !in segments[i]
  }

  lemma {:induction false} LastSlashOfJoin(prefix: string, last: string)
    requires '/' !in last
    ensures LastSlash(prefix + "/" + last) == |prefix|
    decreases |last|
  {
    var s := prefix + "/" + last;
    if last == [] {
      assert s[|s| - 1] == '/';
    } else {
      assert s[|s| - 1] == last[|last| - 1];
      assert s[..|s| - 1] == prefix + "/" + last[..|last| - 1];
      LastSlashOfJoin(prefix, last[..|last| - 1]);
    }
  }

  /** Splitting undoes joining as long as no segment holds a slash of its own. */
  lemma {:induction false} SplitJoin(segments: seq<string>)
    requires NoSlashIn(segments)
    ensures SplitPath(JoinPath(segments)) == segments
    decreases |segments|
  {
    if segments != [] {
      var init, last := segments[..|segments| - 1], segments[|segments| - 1];
      var q := JoinPath(init);
      var p := JoinPath(segments);
      assert p == q + "/" + last;
      assert '/' !in last;
      LastSlashOfJoin(q, last);
      assert p[..|q|] == q;
      assert p[|q| + 1..] == last;
      assert SplitPath(p) == SplitPath(q) + [last];
      SplitJoin(init);
      assert segments == init + [last];
    }
  }
}
