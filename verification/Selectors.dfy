/** What parsing and matching selectors compute, said without the parser. */
module Selectors {
  import opened Common
  import opened Targeting
  import opened Keys

  predicate Blank(s: string) {
    forall i :: 0 <= i < |s| ==> IsSpace(s[i])
  }

  lemma BlankIsStripped(s: string)
    ensures Blank(s) <==> Strip(s, IsSpace) == []
  {
    if Blank(s) {
      StripOf(s, [], [], IsSpace);
      assert s + [] + [] == s;
    }
    if Strip(s, IsSpace) == [] {
      var pre, post := StripEnds(s, IsSpace);
      assert s == pre + post;
    }
  }

  /** Blanks around the key and around the value are ignored, and the first "=" separates them. */
  lemma PaddedSelectorParses(s: Selector, a: string, b: string, c: string, d: string)
    requires Parsable(s) && Blank(a) && Blank(b) && Blank(c) && Blank(d)
    ensures ParseSelector(a + s.key + b + ("=" + (c + s.value + d))) == Ok(s)
  {
    var left, right := a + s.key + b, c + s.value + d;
    NoEqualsBefore(s, a, b);
    StripOf(a, s.key, b, IsSpace);
    StripOf(c, s.value, d, IsSpace);
    SplitParses(left, right);
  }

  lemma NoEqualsBefore(s: Selector, a: string, b: string)
    requires Parsable(s) && Blank(a) && Blank(b)
    ensures '=' !in a + s.key + b
  {
    assert forall i :: 0 <= i < |a| ==> a[i] != '=';
    assert forall i :: 0 <= i < |b| ==> b[i] != '=';
  }

  lemma SplitParses(left: string, right: string)
    requires '=' !in left && Strip(left, IsSpace) != [] && Strip(right, IsSpace) != []
    ensures ParseSelector(left + ("=" + right)) == Ok(Selector(Strip(left, IsSpace), Strip(right, IsSpace)))
  {
    hide Strip;
    var text := left + ("=" + right);
    assert text[..|left|] == left && text[|left|] == '=' && text[|left| + 1..] == right;
    FirstEqualsIs(text, |left|);
  }

  /** A text is refused exactly when it has no "=", or nothing but blanks before the first one or after it. */
  lemma RefusedTexts(text: string)
    ensures ParseSelector(text).Err? <==>
              '=' !in text || exists i :: 0 <= i < |text| && text[i] == '=' && '=' !in text[..i] && (Blank(text[..i]) || Blank(text[i + 1..]))
  {
    hide Blank, Strip, FirstEquals;
    if '=' in text {
      var k := FirstEquals(text);
      BlankIsStripped(text[..k]);
      BlankIsStripped(text[k + 1..]);
      forall i | 0 <= i < |text| && text[i] == '=' && '=' !in text[..i] ensures i == k {
        FirstEqualsIs(text, i);
      }
    }
  }

  // ---------------------------------------------------------------- lists of texts

  lemma NoTexts()
    ensures ParseSelectors([]) == Ok([])
  {
  }

  /** One text: nothing when blank, else what it parses to. */
  lemma OneText(text: string)
    ensures Blank(text) ==> ParseSelectors([text]) == Ok([])
    ensures !Blank(text) && ParseSelector(text).Ok? ==> ParseSelectors([text]) == Ok([ParseSelector(text).value])
    ensures !Blank(text) && ParseSelector(text).Err? ==> ParseSelectors([text]).Err?
  {
    BlankIsStripped(text);
    assert [text][1..] == [];
    if !Blank(text) {
      assert NonBlank([text]) == [text] + NonBlank([]) == [text];
      if ParseSelector(text).Ok? {
        var s := ParseSelector(text).value;
        ParseEachHead(text, []);
        assert [text] + [] == [text] && ParseEach([]) == Ok([]) && [s] + [] == [s];
        assert [s][1..] == [] && Sort([s]) == Insert(s, Sort([s][1..])) == [s];
      }
    }
  }

  lemma {:induction false} EachAppend(a: seq<string>, b: seq<string>)
    ensures ParseEach(a + b).Ok? <==> ParseEach(a).Ok? && ParseEach(b).Ok?
    ensures ParseEach(a + b).Ok? ==> ParseEach(a + b).value == ParseEach(a).value + ParseEach(b).value
  {
    if a == [] {
      assert a + b == b;
    } else {
      assert (a + b)[0] == a[0] && (a + b)[1..] == a[1..] + b;
      EachAppend(a[1..], b);
    }
  }

  /** A list parses exactly when its parts do, to the selectors of both. */
  lemma TextsAddUp(a: seq<string>, b: seq<string>)
    ensures ParseSelectors(a + b).Ok? <==> ParseSelectors(a).Ok? && ParseSelectors(b).Ok?
    ensures ParseSelectors(a + b).Ok? ==>
              multiset(ParseSelectors(a + b).value) == multiset(ParseSelectors(a).value) + multiset(ParseSelectors(b).value)
  {
    NonBlankSplit(a, b);
    EachAppend(NonBlank(a), NonBlank(b));
    if ParseSelectors(a + b).Ok? {
      SortSorts(ParseEach(NonBlank(a + b)).value);
      SortSorts(ParseEach(NonBlank(a)).value);
      SortSorts(ParseEach(NonBlank(b)).value);
    }
  }

  // ---------------------------------------------------------------- matching

  function Pairs(selectors: seq<Selector>): set<(string, string)> {
    set s | s in selectors :: (s.key, s.value)
  }

  /** Tags match when the included pairs are all among them and no excluded pair is. */
  lemma MatchingIsInclusion(tags: Tags, included: seq<Selector>, excluded: seq<Selector>)
    ensures TargetMatches(tags, included, excluded)
            <==> Pairs(included) <= tags.Items && Pairs(excluded) !! tags.Items
  {
    forall s: Selector ensures s.key in tags && tags[s.key] == s.value <==> (s.key, s.value) in tags.Items {
    }
    if Pairs(included) <= tags.Items {
      forall s | s in included ensures Matches(s, tags) {
        assert (s.key, s.value) in Pairs(included);
      }
    }
    if Pairs(excluded) !! tags.Items {
      forall s | s in excluded ensures !Matches(s, tags) {
        assert (s.key, s.value) in Pairs(excluded);
      }
    }
  }
}
