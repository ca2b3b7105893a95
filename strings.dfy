/** Character-sequence helpers: prefix and suffix tests, the list join used by the
    generator, and the two scanners its decoders need. */
module Strings {

  predicate StartsWith(s: string, prefix: string) {
    |prefix| <= |s| && s[..|prefix|] == prefix
  }

  predicate EndsWith(s: string, suffix: string) {
    |suffix| <= |s| && s[|s| - |suffix|..] == suffix
  }

  lemma ConcatAssoc(a: string, b: string, c: string)
    ensures (a + b) + c == a + (b + c)
  {
  }

  lemma PrefixOfConcat(a: string, b: string)
    ensures StartsWith(a + b, a)
  {
    assert (a + b)[..|a|] == a;
  }

  lemma SuffixOfConcat(a: string, b: string)
    ensures EndsWith(a + b, b)
  {
    assert (a + b)[|a|..] == b;
  }

  /** A common prefix can be cancelled. */
  lemma ConcatCancel(a: string, x: string, y: string)
    requires a + x == a + y
    ensures x == y
  {
    assert x == (a + x)[|a|..];
    assert y == (a + y)[|a|..];
  }

  lemma FirstCharDiffers(s: string, prefix: string)
    requires |s| > 0 && |prefix| > 0 && s[0] != prefix[0]
    ensures !StartsWith(s, prefix)
  {
    assert |s| < |prefix| || s[..|prefix|][0] != prefix[0];
  }

  lemma LastCharDiffers(s: string, suffix: string)
    requires |s| > 0 && |suffix| > 0 && s[|s| - 1] != suffix[|suffix| - 1]
    ensures !EndsWith(s, suffix)
  {
    assert |s| < |suffix| || s[|s| - |suffix|..][|suffix| - 1] != suffix[|suffix| - 1];
  }

  /** `Array.prototype.join`: the items in order with `sep` between consecutive ones. */
  function Join(items: seq<string>, sep: string): (r: string)
    ensures |items| == 0 ==> r == ""
    ensures |items| > 0 ==> StartsWith(r, items[0]) && EndsWith(r, items[|items| - 1])
    ensures |items| > 1 ==> |r| >= |items[0]| + |sep| + |items[|items| - 1]|
    decreases |items|
  {
    if |items| == 0 then ""
    else if |items| == 1 then items[0]
    else items[0] + sep + Join(items[1..], sep)
  }

  /** Cuts `s` at every occurrence of ", " (the separator the import builder joins with). */
  function SplitNames(s: string): (r: seq<string>)
    ensures |r| > 0
    decreases |s|
  {
    if |s| == 0 then [""]
    else if |s| >= 2 && s[0] == ',' && s[1] == ' ' then [""] + SplitNames(s[2..])
    else
      var rest := SplitNames(s[1..]);
      [[s[0]] + rest[0]] + rest[1..]
  }

  lemma {:induction false} SplitWithoutComma(a: string)
    requires ',' !in a
    ensures SplitNames(a) == [a]
  {
    if |a| > 0 {
      assert ',' !in a[1..] by {
        forall i | 0 <= i < |a[1..]| ensures a[1..][i] != ',' {
          assert a[1..][i] == a[i + 1];
        }
      }
      SplitWithoutComma(a[1..]);
      assert [a[0]] + a[1..] == a;
    }
  }

  lemma {:induction false} SplitAfterItem(a: string, t: string)
    requires ',' !in a
    ensures SplitNames(a + ", " + t) == [a] + SplitNames(t)
  {
    var s := a + ", " + t;
    if |a| == 0 {
      assert s == ", " + t;
      assert s[2..] == t;
    } else {
      assert s[0] == a[0] && a[0] != ',';
      assert s[1..] == a[1..] + ", " + t;
      assert ',' !in a[1..] by {
        forall i | 0 <= i < |a[1..]| ensures a[1..][i] != ',' {
          assert a[1..][i] == a[i + 1];
        }
      }
      SplitAfterItem(a[1..], t);
      assert [a[0]] + a[1..] == a;
    }
  }

  /** Splitting undoes joining with ", " when no item contains a comma. */
  lemma {:induction false} SplitJoin(items: seq<string>)
    requires |items| > 0
    requires forall i :: 0 <= i < |items| ==> ',' !in items[i]
    ensures SplitNames(Join(items, ", ")) == items
  {
    if |items| == 1 {
      SplitWithoutComma(items[0]);
    } else {
      SplitJoin(items[1..]);
      SplitAfterItem(items[0], Join(items[1..], ", "));
      assert [items[0]] + items[1..] == items;
    }
  }

  /** Joining non-empty items gives the empty string only for the empty list. */
  lemma {:induction false} JoinEmpty(items: seq<string>, sep: string)
    requires forall i :: 0 <= i < |items| ==> items[i] != ""
    ensures Join(items, sep) == "" <==> items == []
  {
    if |items| > 1 {
      assert |Join(items, sep)| >= |items[0]| > 0;
    }
  }

  /** The longest suffix of `s` that does not contain `c`. */
  function AfterLast(s: string, c: char): (r: string)
    ensures |r| <= |s| && r == s[|s| - |r|..]
    ensures c !in r
    ensures |r| < |s| ==> s[|s| - |r| - 1] == c
    decreases |s|
  {
    if |s| == 0 || s[|s| - 1] == c then ""
    else AfterLast(s[..|s| - 1], c) + [s[|s| - 1]]
  }

  /** What follows the last `c` of `p + [c] + t` is `t` when `t` has no `c`. */
  lemma {:induction false} AfterLastDelimited(p: string, c: char, t: string)
    requires c !in t
    ensures AfterLast(p + [c] + t, c) == t
    decreases |t|
  {
    var s := p + [c] + t;
    if t == [] {
      assert s[|s| - 1] == c;
    } else {
      var last := t[|t| - 1];
      assert s[|s| - 1] == last && last != c;
      assert s[..|s| - 1] == p + [c] + t[..|t| - 1];
      var init := t[..|t| - 1];
      assert c !in init by {
        assert forall i :: 0 <= i < |init| ==> init[i] == t[i];
      }
      AfterLastDelimited(p, c, t[..|t| - 1]);
      assert t[..|t| - 1] + [last] == t;
    }
  }
}
