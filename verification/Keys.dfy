/** What the sanitizer and the key derivation compute, law by law; the laws leave no choice. */
module Keys {
  import opened Common
  import opened Targeting

  // ---------------------------------------------------------------- stripping

  predicate AllDrop(s: string, drop: char -> bool) {
    forall i :: 0 <= i < |s| ==> drop(s[i])
  }

  lemma {:induction false} StripLeftOf(pre: string, rest: string, drop: char -> bool)
    requires AllDrop(pre, drop) && (rest == [] || !drop(rest[0]))
    ensures StripLeft(pre + rest, drop) == rest
  {
    if pre == [] {
      assert pre + rest == rest;
    } else {
      assert (pre + rest)[0] == pre[0] && (pre + rest)[1..] == pre[1..] + rest;
      StripLeftOf(pre[1..], rest, drop);
    }
  }

  lemma {:induction false} StripRightOf(rest: string, post: string, drop: char -> bool)
    requires AllDrop(post, drop) && (rest == [] || !drop(rest[|rest| - 1]))
    ensures StripRight(rest + post, drop) == rest
  {
    if post == [] {
      assert rest + post == rest;
    } else {
      var n := |post| - 1;
      assert (rest + post)[|rest + post| - 1] == post[n] && (rest + post)[..|rest + post| - 1] == rest + post[..n];
      StripRightOf(rest, post[..n], drop);
    }
  }

  /** Stripping removes what is droppable at both ends, and only that. */
  lemma StripOf(pre: string, middle: string, post: string, drop: char -> bool)
    requires AllDrop(pre, drop) && AllDrop(post, drop) && Trimmed(middle, drop)
    ensures Strip(pre + middle + post, drop) == middle
  {
    if middle == [] {
      assert pre + middle + post == (pre + post) + [];
      StripLeftOf(pre + post, [], drop);
    } else {
      Regroup(pre, middle, post);
      StripLeftOf(pre, middle + post, drop);
      StripRightOf(middle, post, drop);
    }
  }

  /** The two ends that stripping removes. */
  lemma {:induction false} StripEnds(s: string, drop: char -> bool) returns (pre: string, post: string)
    ensures s == pre + Strip(s, drop) + post && AllDrop(pre, drop) && AllDrop(post, drop)
  {
    var left := StripLeft(s, drop);
    pre := LeftEnd(s, drop);
    post := RightEnd(left, drop);
    Regroup(pre, Strip(s, drop), post);
  }

  lemma {:induction false} LeftEnd(s: string, drop: char -> bool) returns (pre: string)
    ensures s == pre + StripLeft(s, drop) && AllDrop(pre, drop)
  {
    pre := [];
    if s != [] && drop(s[0]) {
      var more := LeftEnd(s[1..], drop);
      pre := [s[0]] + more;
      assert s == [s[0]] + s[1..];
    }
  }

  lemma {:induction false} RightEnd(s: string, drop: char -> bool) returns (post: string)
    ensures s == StripRight(s, drop) + post && AllDrop(post, drop)
  {
    post := [];
    if s != [] && drop(s[|s| - 1]) {
      var more := RightEnd(s[..|s| - 1], drop);
      post := more + [s[|s| - 1]];
      assert s == s[..|s| - 1] + [s[|s| - 1]];
    }
  }

  // ---------------------------------------------------------------- sanitizing

  /** The characters a sanitized key may begin and end with. */
  predicate Solid(c: char) {
    Allowed(c) && c != '_'
  }

  lemma AllowedIsTheKeyAlphabet(c: char)
    ensures var n := c as int; Allowed(c) <==> 65 <= n <= 90 || 97 <= n <= 122 || 48 <= n <= 57 || n in {45, 46, 95}
  {
  }

  predicate NoneAllowed(s: string) {
    forall i :: 0 <= i < |s| ==> !Allowed(s[i])
  }

  predicate NoneSolid(s: string) {
    forall i :: 0 <= i < |s| ==> !Solid(s[i])
  }

  function RunAfter(s: string, inRun: bool): bool {
    if s == [] then inRun else !Allowed(s[|s| - 1])
  }

  lemma {:induction false} CollapseAppend(a: string, b: string, inRun: bool)
    ensures Collapse(a + b, inRun) == Collapse(a, inRun) + Collapse(b, RunAfter(a, inRun))
  {
    if a == [] {
      assert a + b == b;
    } else {
      assert (a + b)[0] == a[0] && (a + b)[1..] == a[1..] + b;
      CollapseAppend(a[1..], b, !Allowed(a[0]));
    }
  }

  lemma {:induction false} CollapseRun(d: string, inRun: bool)
    requires NoneAllowed(d) && d != []
    ensures Collapse(d, inRun) == if inRun then [] else "_"
  {
    if |d| == 1 {
      assert d[1..] == [];
    } else {
      CollapseRun(d[1..], true);
    }
  }

  /** A maximal run of disallowed characters becomes one underscore; what is on its two sides is collapsed by itself. */
  lemma CollapseRuns(a: string, d: string, b: string)
    requires d != [] && NoneAllowed(d) && (a == [] || Allowed(a[|a| - 1])) && (b == [] || Allowed(b[0]))
    ensures Collapse(a + d + b, false) == Collapse(a, false) + "_" + Collapse(b, false)
  {
    CollapseAppend(a + d, b, false);
    CollapseAppend(a, d, false);
    CollapseRun(d, false);
    assert (a + d)[|a + d| - 1] == d[|d| - 1];
    StartIgnoresRun(b);
  }

  lemma StartIgnoresRun(b: string)
    requires b == [] || Allowed(b[0])
    ensures Collapse(b, true) == Collapse(b, false)
  {
  }

  lemma {:induction false} CollapseNoneSolid(s: string, inRun: bool)
    requires NoneSolid(s)
    ensures AllDrop(Collapse(s, inRun), IsUnderscore)
  {
    if s != [] {
      CollapseNoneSolid(s[1..], !Allowed(s[0]));
    }
  }

  lemma CollapseKeepsEnds(v: string)
    requires v != [] && Solid(v[0]) && Solid(v[|v| - 1])
    ensures var r := Collapse(v, false); r != [] && r[0] == v[0] && r[|r| - 1] == v[|v| - 1]
  {
    var n := |v| - 1;
    assert v == v[..n] + [v[n]];
    CollapseAppend(v[..n], [v[n]], false);
    assert [v[n]][1..] == [];
  }

  lemma SolidIsNotSpace(s: string, t: string)
    requires s != [] && Solid(s[0]) && Solid(s[|s| - 1])
    ensures Trimmed(s, IsSpace)
  {
    AllowedIsNotSpace(s[0]);
    AllowedIsNotSpace(s[|s| - 1]);
  }

  /** Outside the first and last solid character everything is dropped; between them each disallowed run becomes an underscore. */
  lemma SanitizeKeepsTheMiddle(pre: string, v: string, post: string)
    requires NoneSolid(pre) && NoneSolid(post) && v != [] && Solid(v[0]) && Solid(v[|v| - 1])
    ensures Sanitize(pre + v + post) == Collapse(v, false)
  {
    hide Collapse, Strip, Allowed, IsSpace;
    var left, right := StripTowards(pre, v, post);
    CollapseAppend(left + v, right, false);
    CollapseAppend(left, v, false);
    StartIgnoresRun(v);
    CollapseNoneSolid(left, false);
    CollapseNoneSolid(right, RunAfter(left + v, false));
    CollapseKeepsEnds(v);
    StripOf(Collapse(left, false), Collapse(v, false), Collapse(right, RunAfter(left + v, false)), IsUnderscore);
  }

  /** Stripping spaces first leaves a shorter surrounding, still without a solid character. */
  lemma StripTowards(pre: string, v: string, post: string) returns (left: string, right: string)
    requires NoneSolid(pre) && NoneSolid(post) && v != [] && Solid(v[0]) && Solid(v[|v| - 1])
    ensures NoneSolid(left) && NoneSolid(right) && Strip(pre + v + post, IsSpace) == left + v + right
  {
    var a := LeftEnd(pre, IsSpace);
    var b := RightEnd(post, IsSpace);
    hide Strip, StripLeft, StripRight, IsSpace;
    left, right := StripLeft(pre, IsSpace), StripRight(post, IsSpace);
    assert forall i :: 0 <= i < |left| ==> left[i] == pre[|a| + i];
    assert forall i :: 0 <= i < |right| ==> right[i] == post[i];
    StripLeftPart(pre, IsSpace);
    StripRightPart(post, IsSpace);
    AllowedIsNotSpace(v[0]);
    AllowedIsNotSpace(v[|v| - 1]);
    MiddleIsTrimmed(left, v, right);
    Surround(a, left, v, right, b);
    StripOf(a, left + v + right, b, IsSpace);
  }

  lemma MiddleIsTrimmed(left: string, v: string, right: string)
    requires v != [] && !IsSpace(v[0]) && !IsSpace(v[|v| - 1])
    requires (left == [] || !IsSpace(left[0])) && (right == [] || !IsSpace(right[|right| - 1]))
    ensures Trimmed(left + v + right, IsSpace)
  {
    hide IsSpace;
    var middle := left + v + right;
    assert middle[0] == if left != [] then left[0] else v[0];
    assert middle[|middle| - 1] == if right != [] then right[|right| - 1] else v[|v| - 1];
  }

  lemma Surround<T>(a: seq<T>, left: seq<T>, v: seq<T>, right: seq<T>, b: seq<T>)
    ensures (a + left) + v + (right + b) == a + (left + v + right) + b
  {
  }

  /** Without a solid character the default key is used. */
  lemma SanitizeFallsBack(value: string)
    requires NoneSolid(value)
    ensures Sanitize(value) == "default"
  {
    var pre, post := StripEnds(value, IsSpace);
    var inner := Strip(value, IsSpace);
    assert NoneSolid(inner) by {
      assert forall i :: 0 <= i < |inner| ==> inner[i] == value[|pre| + i];
    }
    CollapseNoneSolid(inner, false);
    StripOf(Collapse(inner, false), [], [], IsUnderscore);
    assert Collapse(inner, false) + [] + [] == Collapse(inner, false);
  }

  // ---------------------------------------------------------------- deriving

  /** A pool tag that says something. */
  predicate HasPool(tags: Tags) {
    "quota_pool" in tags && tags["quota_pool"] != []
  }

  lemma UntaggedIsDefault()
    ensures DerivePartitionKey(map[]) == "default"
  {
  }

  /** A pool decides alone: jobs that share one share a partition, whatever their other tags. */
  lemma PoolDecides(tags: Tags, others: Tags)
    requires HasPool(tags) && HasPool(others) && tags["quota_pool"] == others["quota_pool"]
    ensures DerivePartitionKey(tags) == DerivePartitionKey(others) == Sanitize(tags["quota_pool"])
    ensures Clean(tags["quota_pool"]) ==> DerivePartitionKey(tags) == tags["quota_pool"]
  {
    SanitizeFixedPoints(tags["quota_pool"]);
  }

  /** Without a pool, one tag gives its key and its value. */
  lemma OneTagIsItsPart(key: string, value: string)
    requires key == "quota_pool" ==> value == []
    ensures DerivePartitionKey(map[key := value]) == Sanitize(key) + "__" + Sanitize(value)
  {
    var tags := map[key := value];
    SortedKeysAre({key}, [key]);
    assert tags.Keys == {key};
    SanitizeClean(key);
  }

  /** Without a pool, a tag whose key comes last adds its key and its value at the end. */
  lemma LastTagComesLast(tags: Tags, key: string, value: string)
    requires tags != map[] && key !in tags && (forall o :: o in tags ==> LexLe(o, key)) && !HasPool(tags[key := value])
    ensures DerivePartitionKey(tags[key := value]) == DerivePartitionKey(tags) + "__" + (Sanitize(key) + "__" + Sanitize(value))
  {
    var more := tags[key := value];
    var keys := SortedKeys(tags.Keys);
    assert !HasPool(tags);
    SortedKeysMembers(tags.Keys);
    assert tags.Keys != {} by { assert exists k :: k in tags; }
    LastKeySortsLast(tags.Keys, key);
    assert more.Keys == tags.Keys + {key};
    JoinedLast(tags, more, keys, key);
    JoinPartsClean(tags, keys);
    JoinPartsClean(more, keys + [key]);
  }

  lemma {:induction false} JoinedLast(tags: Tags, more: Tags, keys: seq<string>, key: string)
    requires keys != [] && (forall k :: k in keys ==> k in tags && k in more && more[k] == tags[k]) && key in more
    ensures (forall k :: k in keys + [key] ==> k in more)
    ensures JoinParts(more, keys + [key]) == JoinParts(tags, keys) + "__" + KeyPart(more, key)
  {
    hide KeyPart, JoinParts;
    var rest := keys[1..];
    assert (keys + [key])[1..] == rest + [key];
    JoinSteps(more, keys + [key]);
    JoinSteps(tags, keys);
    KeyPartIsOwn(tags, more, keys[0]);
    if rest == [] {
      assert [] + [key] == [key];
      JoinSteps(more, [key]);
    } else {
      JoinedLast(tags, more, rest, key);
      var first := KeyPart(tags, keys[0]) + "__";
      assert first + (JoinParts(tags, rest) + "__" + KeyPart(more, key)) == first + JoinParts(tags, rest) + "__" + KeyPart(more, key);
    }
  }

  lemma JoinSteps(tags: Tags, keys: seq<string>)
    requires keys != [] && forall k :: k in keys ==> k in tags
    ensures JoinParts(tags, keys)
            == if keys[1..] == [] then KeyPart(tags, keys[0]) else KeyPart(tags, keys[0]) + "__" + JoinParts(tags, keys[1..])
  {
  }

  lemma KeyPartIsOwn(tags: Tags, more: Tags, key: string)
    requires key in tags && key in more && more[key] == tags[key]
    ensures KeyPart(more, key) == KeyPart(tags, key)
  {
  }

  lemma SortedKeysAre(keys: set<string>, list: seq<string>)
    requires |list| == 1 && keys == {list[0]}
    ensures SortedKeys(keys) == list
  {
    var k := list[0];
    LexTotal(k, k);
    assert SortedKeys(keys - {k}) == [];
  }

  lemma LeastIsFirst(keys: set<string>, k: string)
    requires k in keys && forall o :: o in keys ==> LexLe(k, o)
    ensures SortedKeys(keys) == [k] + SortedKeys(keys - {k})
  {
    LeastUnique(keys);
  }

  lemma {:induction false} LastKeySortsLast(keys: set<string>, last: string)
    requires last !in keys && forall o :: o in keys ==> LexLe(o, last)
    ensures SortedKeys(keys + {last}) == SortedKeys(keys) + [last]
  {
    if keys == {} {
      assert keys + {last} == {last};
      SortedKeysAre({last}, [last]);
    } else {
      LeastExists(keys);
      var k :| k in keys && forall o :: o in keys ==> LexLe(k, o);
      LeastIsFirst(keys, k);
      assert forall o :: o in keys + {last} ==> LexLe(k, o);
      LeastIsFirst(keys + {last}, k);
      assert keys + {last} - {k} == (keys - {k}) + {last};
      LastKeySortsLast(keys - {k}, last);
    }
  }

  /** Without a pool, every tag's key and value occur in the derived key. */
  lemma EveryTagOccurs(tags: Tags, key: string) returns (pre: string, post: string)
    requires key in tags && !HasPool(tags)
    ensures DerivePartitionKey(tags) == pre + (Sanitize(key) + "__" + Sanitize(tags[key])) + post
  {
    SortedKeysMembers(tags.Keys);
    JoinPartsClean(tags, SortedKeys(tags.Keys));
    pre, post := PartOccurs(tags, SortedKeys(tags.Keys), key);
  }

  lemma {:induction false} PartOccurs(tags: Tags, keys: seq<string>, key: string) returns (pre: string, post: string)
    requires (forall k :: k in keys ==> k in tags) && key in keys
    ensures JoinParts(tags, keys) == pre + (Sanitize(key) + "__" + Sanitize(tags[key])) + post
  {
    hide Sanitize;
    var part := KeyPart(tags, keys[0]);
    if keys[0] == key {
      pre, post := [], if |keys| == 1 then [] else "__" + JoinParts(tags, keys[1..]);
      assert part == Sanitize(key) + "__" + Sanitize(tags[key]);
      Regroup(part, "__", JoinParts(tags, keys[1..]));
      assert [] + part == part && part + [] == part;
    } else {
      var p, q := PartOccurs(tags, keys[1..], key);
      pre, post := part + "__" + p, q;
      Inside(part + "__", p, Sanitize(key) + "__" + Sanitize(tags[key]), q);
    }
  }

  lemma Inside<T>(front: seq<T>, p: seq<T>, part: seq<T>, q: seq<T>)
    ensures front + (p + part + q) == front + p + part + q
  {
  }
}
