/** Target selectors, tag matching and partition keys (src/dr_queues/targeting.py). */
module Targeting {
  import opened Common

  const DEFAULT_PARTITION_KEY: string := "default"
  const PARTITION_KEY_SEPARATOR: string := "__"
  const QUOTA_POOL: string := "quota_pool"

  type Tags = map<string, string>

  // ---------------------------------------------------------------- stripping

  /** The characters Python's `str.strip()` removes. */
  predicate IsSpace(c: char) {
    var n := c as int;
    || 9 <= n <= 13 || 28 <= n <= 32 || n == 0x85 || n == 0xA0 || n == 0x1680
    || 0x2000 <= n <= 0x200A || n == 0x2028 || n == 0x2029 || n == 0x202F || n == 0x205F || n == 0x3000
  }

  predicate IsUnderscore(c: char) {
    c == '_'
  }

  function StripLeft(s: string, drop: char -> bool): string {
    if s != [] && drop(s[0]) then StripLeft(s[1..], drop) else s
  }

  function StripRight(s: string, drop: char -> bool): string {
    if s != [] && drop(s[|s| - 1]) then StripRight(s[..|s| - 1], drop) else s
  }

  function Strip(s: string, drop: char -> bool): string {
    StripRight(StripLeft(s, drop), drop)
  }

  /** Nothing to strip at either end. */
  predicate Trimmed(s: string, drop: char -> bool) {
    s == [] || (!drop(s[0]) && !drop(s[|s| - 1]))
  }

  lemma {:induction false} StripLeftPart(s: string, drop: char -> bool)
    ensures var r := StripLeft(s, drop); |r| <= |s| && r == s[|s| - |r|..] && (r != [] ==> !drop(r[0]))
  {
    if s != [] && drop(s[0]) {
      StripLeftPart(s[1..], drop);
    }
  }

  lemma {:induction false} StripRightPart(s: string, drop: char -> bool)
    ensures var r := StripRight(s, drop); |r| <= |s| && r == s[..|r|] && (r != [] ==> !drop(r[|r| - 1]))
  {
    if s != [] && drop(s[|s| - 1]) {
      StripRightPart(s[..|s| - 1], drop);
    }
  }

  lemma StripTrims(s: string, drop: char -> bool)
    ensures Trimmed(Strip(s, drop), drop)
    ensures forall c :: c in Strip(s, drop) ==> c in s
  {
    StripLeftPart(s, drop);
    StripRightPart(StripLeft(s, drop), drop);
  }

  lemma StripFixed(s: string, drop: char -> bool)
    requires Trimmed(s, drop)
    ensures Strip(s, drop) == s
  {
  }

  // ---------------------------------------------------------------- partition keys

  /** The character class `[A-Za-z0-9_.-]`. */
  predicate Allowed(c: char) {
    'A' <= c <= 'Z' || 'a' <= c <= 'z' || '0' <= c <= '9' || c == '_' || c == '.' || c == '-'
  }

  /** `re.sub("[^A-Za-z0-9_.-]+", "_", s)`; `inRun` says that a disallowed run has already been replaced. */
  function Collapse(s: string, inRun: bool): string {
    if s == [] then []
    else if Allowed(s[0]) then [s[0]] + Collapse(s[1..], false)
    else if inRun then Collapse(s[1..], true)
    else "_" + Collapse(s[1..], true)
  }

  function Sanitize(value: string): string {
    var stripped := Strip(Collapse(Strip(value, IsSpace), false), IsUnderscore);
    if stripped == [] then DEFAULT_PARTITION_KEY else stripped
  }

  /** What a sanitized key looks like, said without the sanitizer. */
  predicate Clean(s: string) {
    && s != []
    && (forall c :: c in s ==> Allowed(c))
    && s[0] != '_' && s[|s| - 1] != '_'
  }

  lemma {:induction false} CollapseAllowed(s: string, inRun: bool)
    ensures forall c :: c in Collapse(s, inRun) ==> Allowed(c)
  {
    if s != [] {
      CollapseAllowed(s[1..], !Allowed(s[0]));
    }
  }

  lemma {:induction false} CollapseFixed(s: string, inRun: bool)
    requires forall c :: c in s ==> Allowed(c)
    ensures Collapse(s, inRun) == s
  {
    if s != [] {
      CollapseFixed(s[1..], false);
    }
  }

  lemma AllowedIsNotSpace(c: char)
    requires Allowed(c)
    ensures !IsSpace(c)
  {
    assert c as int == 46 || c as int == 45 || 48 <= c as int <= 122;
  }

  lemma SanitizeClean(value: string)
    ensures Clean(Sanitize(value))
  {
    var collapsed := Collapse(Strip(value, IsSpace), false);
    CollapseAllowed(Strip(value, IsSpace), false);
    StripTrims(collapsed, IsUnderscore);
  }

  /** The fixed points of the sanitizer are exactly the clean strings. */
  lemma SanitizeFixedPoints(value: string)
    ensures Sanitize(value) == value <==> Clean(value)
  {
    SanitizeClean(value);
    if Clean(value) {
      AllowedIsNotSpace(value[0]);
      AllowedIsNotSpace(value[|value| - 1]);
      StripFixed(value, IsSpace);
      CollapseFixed(value, false);
      StripFixed(value, IsUnderscore);
    }
  }

  lemma SanitizeIdempotent(value: string)
    ensures Sanitize(Sanitize(value)) == Sanitize(value)
  {
    SanitizeClean(value);
    SanitizeFixedPoints(Sanitize(value));
  }

  lemma {:induction false} LeastExists(keys: set<string>)
    requires keys != {}
    ensures exists k :: k in keys && forall o :: o in keys ==> LexLe(k, o)
  {
    var x :| x in keys;
    var rest := keys - {x};
    LexTotal(x, x);
    if rest == {} {
      assert forall o :: o in keys ==> o in rest || o == x;
    } else {
      LeastExists(rest);
      var y :| y in rest && forall o :: o in rest ==> LexLe(y, o);
      LexTotal(x, y);
      if LexLe(x, y) {
        forall o | o in keys ensures LexLe(x, o) {
          if o != x { LexTransitive(x, y, o); }
        }
      } else {
        assert forall o :: o in keys ==> o == x || o in rest;
      }
    }
  }

  lemma LeastUnique(keys: set<string>)
    ensures forall k, l ::
              (k in keys && l in keys && (forall o :: o in keys ==> LexLe(k, o)) && (forall o :: o in keys ==> LexLe(l, o)))
              ==> k == l
  {
    forall k, l | k in keys && l in keys && (forall o :: o in keys ==> LexLe(k, o)) && (forall o :: o in keys ==> LexLe(l, o))
      ensures k == l
    {
      LexAntisymmetric(k, l);
    }
  }

  /** The keys of a tag dictionary in the order `sorted(tags.items())` visits them. */
  function SortedKeys(keys: set<string>): seq<string> {
    if keys == {} then []
    else
      LeastExists(keys);
      LeastUnique(keys);
      var k :| k in keys && forall o :: o in keys ==> LexLe(k, o);
      [k] + SortedKeys(keys - {k})
  }

  lemma {:induction false} SortedKeysMembers(keys: set<string>)
    ensures forall k :: k in SortedKeys(keys) <==> k in keys
    ensures keys != {} ==> SortedKeys(keys) != []
  {
    if keys != {} {
      LeastExists(keys);
      LeastUnique(keys);
      var k :| k in keys && forall o :: o in keys ==> LexLe(k, o);
      SortedKeysMembers(keys - {k});
      assert SortedKeys(keys) == [k] + SortedKeys(keys - {k});
    }
  }

  function KeyPart(tags: Tags, key: string): string
    requires key in tags
  {
    Sanitize(key) + PARTITION_KEY_SEPARATOR + Sanitize(tags[key])
  }

  function JoinParts(tags: Tags, keys: seq<string>): string
    requires forall k :: k in keys ==> k in tags
  {
    if keys == [] then []
    else if |keys| == 1 then KeyPart(tags, keys[0])
    else KeyPart(tags, keys[0]) + PARTITION_KEY_SEPARATOR + JoinParts(tags, keys[1..])
  }

  function DerivePartitionKey(tags: Tags): string {
    if tags == map[] then DEFAULT_PARTITION_KEY
    else if QUOTA_POOL in tags && tags[QUOTA_POOL] != [] then Sanitize(tags[QUOTA_POOL])
    else
      SortedKeysMembers(tags.Keys);
      var joined := JoinParts(tags, SortedKeys(tags.Keys));
      if joined == [] then DEFAULT_PARTITION_KEY else joined
  }

  lemma CleanJoin(a: string, b: string)
    requires Clean(a) && Clean(b)
    ensures Clean(a + PARTITION_KEY_SEPARATOR + b)
  {
    var r := a + PARTITION_KEY_SEPARATOR + b;
    forall c | c in r ensures Allowed(c) {
      assert c in a || c in PARTITION_KEY_SEPARATOR || c in b;
    }
  }

  lemma {:induction false} JoinPartsClean(tags: Tags, keys: seq<string>)
    requires forall k :: k in keys ==> k in tags
    requires keys != []
    ensures Clean(JoinParts(tags, keys))
  {
    SanitizeClean(keys[0]);
    SanitizeClean(tags[keys[0]]);
    CleanJoin(Sanitize(keys[0]), Sanitize(tags[keys[0]]));
    if |keys| > 1 {
      JoinPartsClean(tags, keys[1..]);
      CleanJoin(KeyPart(tags, keys[0]), JoinParts(tags, keys[1..]));
    }
  }

  /** Every derived key is clean, hence a fixed point of the sanitizer applied again when a queue is named. */
  lemma DerivedKeyIsFixedPoint(tags: Tags)
    ensures Clean(DerivePartitionKey(tags))
    ensures Sanitize(DerivePartitionKey(tags)) == DerivePartitionKey(tags)
  {
    if tags != map[] {
      if QUOTA_POOL in tags && tags[QUOTA_POOL] != [] {
        SanitizeClean(tags[QUOTA_POOL]);
      } else {
        SortedKeysMembers(tags.Keys);
        assert tags.Keys != {} by { assert exists k :: k in tags; }
        JoinPartsClean(tags, SortedKeys(tags.Keys));
      }
    }
    SanitizeFixedPoints(DerivePartitionKey(tags));
  }

  // ---------------------------------------------------------------- selectors

  datatype Selector = Selector(key: string, value: string)

  function FirstEquals(s: string): (i: nat)
    requires '=' in s
    ensures i < |s| && s[i] == '=' && '=' !in s[..i]
  {
    if s[0] == '=' then 0 else 1 + FirstEquals(s[1..])
  }

  lemma {:induction false} FirstEqualsIs(s: string, k: nat)
    requires k < |s| && s[k] == '=' && '=' !in s[..k]
    ensures FirstEquals(s) == k
  {
    if k > 0 {
      assert s[0] == s[..k][0];
      assert s[1..][..k - 1] == s[..k][1..];
      FirstEqualsIs(s[1..], k - 1);
    }
  }

  function ParseSelector(value: string): Result<Selector, string> {
    if '=' !in value then Err("expected key=value")
    else
      var i := FirstEquals(value);
      var key := Strip(value[..i], IsSpace);
      var text := Strip(value[i + 1..], IsSpace);
      if key == [] || text == [] then Err("expected non-empty key=value") else Ok(Selector(key, text))
  }

  function PrintSelector(s: Selector): string {
    s.key + "=" + s.value
  }

  /** The selectors that survive printing and parsing. */
  predicate Parsable(s: Selector) {
    && s.key != [] && s.value != []
    && Trimmed(s.key, IsSpace) && Trimmed(s.value, IsSpace)
    && '=' !in s.key
  }

  lemma ParsedIsParsable(value: string)
    requires ParseSelector(value).Ok?
    ensures Parsable(ParseSelector(value).value)
  {
    var i := FirstEquals(value);
    StripTrims(value[..i], IsSpace);
    StripTrims(value[i + 1..], IsSpace);
  }

  /** Printing then parsing is the identity exactly on the parsable selectors. */
  lemma SelectorRoundTrip(s: Selector)
    ensures ParseSelector(PrintSelector(s)) == Ok(s) <==> Parsable(s)
  {
    var text := PrintSelector(s);
    if Parsable(s) {
      assert text[..|s.key|] == s.key && text[|s.key| + 1..] == s.value;
      FirstEqualsIs(text, |s.key|);
      StripFixed(s.key, IsSpace);
      StripFixed(s.value, IsSpace);
    }
    if ParseSelector(text) == Ok(s) {
      ParsedIsParsable(text);
    }
  }

  // ---------------------------------------------------------------- selector lists

  predicate SelectorLe(a: Selector, b: Selector) {
    if a.key == b.key then LexLe(a.value, b.value) else LexLe(a.key, b.key)
  }

  lemma SelectorOrder(a: Selector, b: Selector)
    ensures SelectorLe(a, b) || SelectorLe(b, a)
    ensures SelectorLe(a, b) && SelectorLe(b, a) ==> a == b
  {
    LexTotal(a.key, b.key);
    LexTotal(a.value, b.value);
    if SelectorLe(a, b) && SelectorLe(b, a) {
      if a.key != b.key {
        LexAntisymmetric(a.key, b.key);
      }
      LexAntisymmetric(a.value, b.value);
    }
  }

  lemma SelectorLeTransitive(a: Selector, b: Selector, c: Selector)
    requires SelectorLe(a, b) && SelectorLe(b, c)
    ensures SelectorLe(a, c)
  {
    if a.key == b.key && b.key == c.key {
      LexTransitive(a.value, b.value, c.value);
    } else if a.key != b.key && b.key != c.key {
      LexTransitive(a.key, b.key, c.key);
      if a.key == c.key {
        LexAntisymmetric(a.key, b.key);
      }
    }
  }

  ghost predicate SortedSelectors(s: seq<Selector>) {
    forall i, j :: 0 <= i < j < |s| ==> SelectorLe(s[i], s[j])
  }

  function Insert(x: Selector, s: seq<Selector>): seq<Selector> {
    if s == [] then [x]
    else if SelectorLe(x, s[0]) then [x] + s
    else [s[0]] + Insert(x, s[1..])
  }

  /** `sorted(..., key=(key, value))`: equal keys are equal selectors, so stability does not show. */
  function Sort(s: seq<Selector>): seq<Selector> {
    if s == [] then [] else Insert(s[0], Sort(s[1..]))
  }

  lemma {:induction false} InsertAdds(x: Selector, s: seq<Selector>)
    ensures multiset(Insert(x, s)) == multiset{x} + multiset(s)
  {
    hide SelectorLe;
    if s != [] && !SelectorLe(x, s[0]) {
      InsertAdds(x, s[1..]);
      assert s == [s[0]] + s[1..];
    }
  }

  lemma {:induction false} InsertSorts(x: Selector, s: seq<Selector>)
    requires SortedSelectors(s)
    ensures SortedSelectors(Insert(x, s))
  {
    hide SelectorLe;
    if s != [] {
      if SelectorLe(x, s[0]) {
        forall j | 0 <= j < |s| ensures SelectorLe(x, s[j]) {
          if j > 0 { SelectorLeTransitive(x, s[0], s[j]); }
        }
      } else {
        InsertSorts(x, s[1..]);
        SelectorOrder(x, s[0]);
        InsertedIsAbove(x, s);
      }
    }
  }

  lemma InsertedIsAbove(x: Selector, s: seq<Selector>)
    requires s != [] && SortedSelectors(s) && SelectorLe(s[0], x)
    ensures forall j :: 0 <= j < |Insert(x, s[1..])| ==> SelectorLe(s[0], Insert(x, s[1..])[j])
  {
    hide SelectorLe, Insert;
    var r := Insert(x, s[1..]);
    InsertAdds(x, s[1..]);
    forall j | 0 <= j < |r| ensures SelectorLe(s[0], r[j]) {
      assert r[j] in multiset(r);
      if r[j] != x {
        assert r[j] in multiset(s[1..]);
        var k :| 0 <= k < |s[1..]| && s[1..][k] == r[j];
        assert s[k + 1] == r[j];
      }
    }
  }

  lemma {:induction false} SortSorts(s: seq<Selector>)
    ensures multiset(Sort(s)) == multiset(s)
    ensures SortedSelectors(Sort(s))
  {
    if s != [] {
      SortSorts(s[1..]);
      InsertSorts(s[0], Sort(s[1..]));
      InsertAdds(s[0], Sort(s[1..]));
      assert s == [s[0]] + s[1..];
    }
  }

  lemma {:induction false} SortedUnique(a: seq<Selector>, b: seq<Selector>)
    requires SortedSelectors(a) && SortedSelectors(b)
    requires multiset(a) == multiset(b)
    ensures a == b
  {
    hide SelectorLe;
    assert |a| == |multiset(a)| == |multiset(b)| == |b|;
    if a != [] {
      LeastComesFirst(a, b);
      TailMultiset(a);
      TailMultiset(b);
      SortedUnique(a[1..], b[1..]);
      assert a == [a[0]] + a[1..] && b == [b[0]] + b[1..];
    }
  }

  lemma TailMultiset<T>(a: seq<T>)
    requires a != []
    ensures multiset(a[1..]) == multiset(a) - multiset{a[0]}
  {
    assert a == [a[0]] + a[1..];
  }

  lemma LeastComesFirst(a: seq<Selector>, b: seq<Selector>)
    requires SortedSelectors(a) && SortedSelectors(b) && a != [] && b != [] && multiset(a) == multiset(b)
    ensures a[0] == b[0]
  {
    hide SelectorLe;
    assert a[0] in multiset(b) && b[0] in multiset(a);
    var i :| 0 <= i < |b| && b[i] == a[0];
    var j :| 0 <= j < |a| && a[j] == b[0];
    SelectorOrder(a[0], b[0]);
  }

  function NonBlank(values: seq<string>): seq<string> {
    if values == [] then []
    else if Strip(values[0], IsSpace) != [] then [values[0]] + NonBlank(values[1..])
    else NonBlank(values[1..])
  }

  /** Parses in list order; the first invalid text is the one reported. */
  function ParseEach(values: seq<string>): Result<seq<Selector>, string> {
    if values == [] then Ok([])
    else
      match ParseSelector(values[0])
      case Err(e) => Err(e)
      case Ok(s) =>
        match ParseEach(values[1..])
        case Err(e) => Err(e)
        case Ok(rest) => Ok([s] + rest)
  }

  function ParseSelectors(values: seq<string>): Result<seq<Selector>, string> {
    match ParseEach(NonBlank(values))
    case Err(e) => Err(e)
    case Ok(selectors) => Ok(Sort(selectors))
  }

  function PrintSelectors(selectors: seq<Selector>): seq<string> {
    if selectors == [] then [] else [PrintSelector(selectors[0])] + PrintSelectors(selectors[1..])
  }

  lemma {:induction false} ParseEachParsable(values: seq<string>)
    requires ParseEach(values).Ok?
    ensures forall s :: s in ParseEach(values).value ==> Parsable(s)
  {
    if values != [] {
      ParsedIsParsable(values[0]);
      ParseEachParsable(values[1..]);
    }
  }

  lemma {:induction false} ParsePrinted(selectors: seq<Selector>)
    requires forall s :: s in selectors ==> Parsable(s)
    ensures ParseEach(NonBlank(PrintSelectors(selectors))) == Ok(selectors)
  {
    if selectors != [] {
      var s := selectors[0];
      SelectorRoundTrip(s);
      PrintedIsNotBlank(s);
      ParsePrinted(selectors[1..]);
      NonBlankHead(PrintSelector(s), PrintSelectors(selectors[1..]));
      ParseEachHead(PrintSelector(s), NonBlank(PrintSelectors(selectors[1..])));
      assert selectors == [s] + selectors[1..];
    }
  }

  lemma NonBlankHead(text: string, rest: seq<string>)
    requires Strip(text, IsSpace) != []
    ensures NonBlank([text] + rest) == [text] + NonBlank(rest)
  {
    assert ([text] + rest)[1..] == rest;
  }

  lemma ParseEachHead(text: string, rest: seq<string>)
    requires ParseSelector(text).Ok? && ParseEach(rest).Ok?
    ensures ParseEach([text] + rest) == Ok([ParseSelector(text).value] + ParseEach(rest).value)
  {
    assert ([text] + rest)[1..] == rest;
  }

  lemma {:induction false} SomethingLeft(text: string, i: nat)
    requires i < |text| && !IsSpace(text[i])
    ensures StripRight(text, IsSpace) != []
  {
    if IsSpace(text[|text| - 1]) {
      SomethingLeft(text[..|text| - 1], i);
    }
  }

  lemma PrintedIsNotBlank(s: Selector)
    requires Parsable(s)
    ensures Strip(PrintSelector(s), IsSpace) != []
  {
    assert PrintSelector(s)[0] == s.key[0];
    SomethingLeft(PrintSelector(s), 0);
  }

  /** Selectors cross a process boundary unchanged: what a list prints to parses back to the same list. */
  lemma SelectorsRoundTrip(values: seq<string>)
    requires ParseSelectors(values).Ok?
    ensures ParseSelectors(PrintSelectors(ParseSelectors(values).value)) == ParseSelectors(values)
  {
    var parsed := ParseEach(NonBlank(values)).value;
    var sorted := Sort(parsed);
    ParseEachParsable(NonBlank(values));
    SortSorts(parsed);
    forall s | s in sorted ensures Parsable(s) {
      assert s in multiset(sorted);
      assert s in multiset(parsed);
    }
    ParsePrinted(sorted);
    SortSorts(sorted);
    SortedUnique(Sort(sorted), sorted);
  }

  lemma {:induction false} ParseEachMultiset(a: seq<string>, b: seq<string>)
    requires multiset(a) == multiset(b)
    requires ParseEach(a).Ok?
    ensures ParseEach(b).Ok?
    ensures multiset(ParseEach(a).value) == multiset(ParseEach(b).value)
  {
    assert |a| == |multiset(a)| == |multiset(b)| == |b|;
    if a != [] {
      assert a[0] in multiset(b);
      var i :| 0 <= i < |b| && b[i] == a[0];
      SpliceMultiset(b, i);
      SpliceMultiset(a, 0);
      assert Without(a, 0) == a[1..];
      ParseEachMultiset(a[1..], Without(b, i));
      ParseEachSplice(b, i);
    }
  }

  lemma {:induction false} ParseEachSplice(b: seq<string>, i: nat)
    requires i < |b|
    requires ParseSelector(b[i]).Ok? && ParseEach(Without(b, i)).Ok?
    ensures ParseEach(b).Ok?
    ensures multiset(ParseEach(b).value) == multiset{ParseSelector(b[i]).value} + multiset(ParseEach(Without(b, i)).value)
  {
    if i > 0 {
      assert Without(b, i)[0] == b[0] && Without(b, i)[1..] == Without(b[1..], i - 1);
      ParseEachSplice(b[1..], i - 1);
    } else {
      assert Without(b, 0) == b[1..];
    }
  }

  lemma {:induction false} NonBlankSplit(a: seq<string>, b: seq<string>)
    ensures NonBlank(a + b) == NonBlank(a) + NonBlank(b)
  {
    hide Strip;
    if a == [] {
      assert a + b == b;
    } else {
      NonBlankSplit(a[1..], b);
      assert (a + b)[1..] == a[1..] + b;
    }
  }

  lemma MultisetMiddle(x: seq<string>, t: seq<string>, y: seq<string>)
    ensures multiset(x + (t + y)) == multiset(x + y) + multiset(t)
  {
  }

  lemma NonBlankSplice(b: seq<string>, i: nat)
    requires i < |b|
    ensures multiset(NonBlank(b)) == multiset(NonBlank(Without(b, i))) + multiset(NonBlank([b[i]]))
  {
    hide NonBlank;
    var before, here, after := b[..i], [b[i]], b[i + 1..];
    assert b == before + (here + after);
    NonBlankSplit(before, here + after);
    NonBlankSplit(here, after);
    NonBlankSplit(before, after);
    MultisetMiddle(NonBlank(before), NonBlank(here), NonBlank(after));
  }

  lemma SpliceMultiset(b: seq<string>, i: nat)
    requires i < |b|
    ensures multiset(Without(b, i)) == multiset(b) - multiset{b[i]}
    ensures multiset(b) == multiset(Without(b, i)) + multiset{b[i]}
  {
    assert b == b[..i] + ([b[i]] + b[i + 1..]);
    MultisetMiddle(b[..i], [b[i]], b[i + 1..]);
  }

  lemma {:induction false} NonBlankMultiset(a: seq<string>, b: seq<string>)
    requires multiset(a) == multiset(b)
    ensures multiset(NonBlank(a)) == multiset(NonBlank(b))
  {
    assert |a| == |multiset(a)| == |multiset(b)| == |b|;
    if a != [] {
      assert a[0] in multiset(b);
      var i :| 0 <= i < |b| && b[i] == a[0];
      SpliceMultiset(b, i);
      SpliceMultiset(a, 0);
      assert Without(a, 0) == a[1..];
      NonBlankMultiset(a[1..], Without(b, i));
      NonBlankSplice(a, 0);
      NonBlankSplice(b, i);
    }
  }

  /** Selector texts in any order name the same canonical list. */
  lemma SelectorListsAreCanonical(a: seq<string>, b: seq<string>)
    requires multiset(a) == multiset(b)
    requires ParseSelectors(a).Ok?
    ensures ParseSelectors(b) == ParseSelectors(a)
  {
    NonBlankMultiset(a, b);
    ParseEachMultiset(NonBlank(a), NonBlank(b));
    var x, y := ParseEach(NonBlank(a)).value, ParseEach(NonBlank(b)).value;
    SortSorts(x);
    SortSorts(y);
    SortedUnique(Sort(x), Sort(y));
  }

  // ---------------------------------------------------------------- matching

  predicate Matches(s: Selector, tags: Tags) {
    s.key in tags && tags[s.key] == s.value
  }

  predicate TargetMatches(tags: Tags, included: seq<Selector>, excluded: seq<Selector>) {
    && (forall s :: s in included ==> Matches(s, tags))
    && (forall s :: s in excluded ==> !Matches(s, tags))
  }
}
