/** The escaping EJS applies to an `<%= … %>` tag: each of `&`, `<`, `>`, `"` and `'`
    becomes a character reference, every other character is kept. */
module Ejs {
  import opened Strings

  predicate IsSpecial(c: char) {
    c == '&' || c == '<' || c == '>' || c == '"' || c == '\''
  }

  /** The replacement of one character. */
  function EscapeChar(c: char): (r: string)
    ensures IsSpecial(c) ==> |r| > 1 && r[0] == '&' && r[|r| - 1] == ';'
    ensures !IsSpecial(c) ==> r == [c]
  {
    match c
    case '&' => "&amp;"
    case '<' => "&lt;"
    case '>' => "&gt;"
    case '"' => "&#34;"
    case '\'' => "&#39;"
    case _ => [c]
  }

  /** The text an `<%= … %>` tag emits for `s`. */
  function EscapeHtml(s: string): (r: string)
    ensures |r| >= |s|
    decreases |s|
  {
    if s == [] then [] else EscapeChar(s[0]) + EscapeHtml(s[1..])
  }

  /** `c` is one of the characters that would end an attribute value or open a tag. */
  predicate IsMarkup(c: char) {
    c == '<' || c == '>' || c == '"' || c == '\''
  }

  predicate NoMarkup(t: string) {
    forall i :: 0 <= i < |t| ==> !IsMarkup(t[i])
  }

  /** No `<`, `>`, `"` or `'` survives the escaping. */
  lemma {:induction false} EscapeLeavesNoMarkup(s: string)
    ensures NoMarkup(EscapeHtml(s))
    decreases |s|
  {
    if s != [] {
      EscapeLeavesNoMarkup(s[1..]);
      var e, rest := EscapeChar(s[0]), EscapeHtml(s[1..]);
      assert EscapeHtml(s) == e + rest;
      EscapeCharNoMarkup(s[0]);
      forall i | 0 <= i < |e + rest| ensures !IsMarkup((e + rest)[i]) {
        if i < |e| {
          assert (e + rest)[i] == e[i];
        } else {
          assert (e + rest)[i] == rest[i - |e|];
        }
      }
    }
  }

  lemma EscapeCharNoMarkup(c: char)
    ensures NoMarkup(EscapeChar(c))
  {
    var e := EscapeChar(c);
    if c == '&' {
      assert e == "&amp;";
    } else if c == '<' {
      assert e == "&lt;";
    } else if c == '>' {
      assert e == "&gt;";
    } else if c == '"' {
      assert e == "&#34;";
    } else if c == '\'' {
      assert e == "&#39;";
    } else {
      assert e == [c];
    }
  }

  /** A text without any of the five characters is emitted as it is. */
  lemma {:induction false} EscapePlain(s: string)
    requires forall i :: 0 <= i < |s| ==> !IsSpecial(s[i])
    ensures EscapeHtml(s) == s
    decreases |s|
  {
    if s != [] {
      assert forall i :: 0 <= i < |s[1..]| ==> s[1..][i] == s[i + 1];
      EscapePlain(s[1..]);
      assert [s[0]] + s[1..] == s;
    }
  }

  /** Replaces the five character references by the characters they stand for. */
  function Unescape(t: string): string
    decreases |t|
  {
    if t == [] then []
    else if StartsWith(t, "&amp;") then "&" + Unescape(t[5..])
    else if StartsWith(t, "&lt;") then "<" + Unescape(t[4..])
    else if StartsWith(t, "&gt;") then ">" + Unescape(t[4..])
    else if StartsWith(t, "&#34;") then "\"" + Unescape(t[5..])
    else if StartsWith(t, "&#39;") then "'" + Unescape(t[5..])
    else [t[0]] + Unescape(t[1..])
  }

  lemma UnescapeSpecial(c: char, rest: string)
    requires IsSpecial(c)
    ensures Unescape(EscapeChar(c) + rest) == [c] + Unescape(rest)
  {
    var e := EscapeChar(c);
    var t := e + rest;
    PrefixOfConcat(e, rest);
    assert t[|e|..] == rest;
    if c != '&' {
      assert e[1] != 'a';
      assert t[1] == e[1];
    }
    if c != '<' && c != '>' {
      assert e[1] != 'l' && e[1] != 'g';
    }
    if c == '\'' {
      assert e[2] == '3' && e[3] == '9';
      assert t[..5] == e;
    }
  }

  lemma UnescapePlain(c: char, rest: string)
    requires !IsSpecial(c)
    ensures Unescape([c] + rest) == [c] + Unescape(rest)
  {
    var t := [c] + rest;
    FirstCharDiffers(t, "&amp;");
    FirstCharDiffers(t, "&lt;");
    FirstCharDiffers(t, "&gt;");
    FirstCharDiffers(t, "&#34;");
    FirstCharDiffers(t, "&#39;");
    assert t[1..] == rest;
  }

  /** The escaping loses nothing: unescaping gives back the original text. */
  lemma {:induction false} UnescapeEscape(s: string)
    ensures Unescape(EscapeHtml(s)) == s
    decreases |s|
  {
    if s != [] {
      UnescapeEscape(s[1..]);
      if IsSpecial(s[0]) {
        UnescapeSpecial(s[0], EscapeHtml(s[1..]));
      } else {
        UnescapePlain(s[0], EscapeHtml(s[1..]));
      }
      assert [s[0]] + s[1..] == s;
    }
  }

  /** Distinct names are emitted as distinct texts. */
  lemma EscapeInjective(s1: string, s2: string)
    requires EscapeHtml(s1) == EscapeHtml(s2)
    ensures s1 == s2
  {
    UnescapeEscape(s1);
    UnescapeEscape(s2);
  }

  /** An apostrophe is emitted as `&#39;`. */
  lemma ApostropheEscaped()
    ensures EscapeHtml("It's") == "It&#39;s"
  {
    assert EscapeHtml("s") == "s";
    assert EscapeHtml("'s") == "&#39;" + "s";
    assert EscapeHtml("t's") == "t" + "&#39;s";
    assert EscapeHtml("It's") == "I" + "t&#39;s";
  }
}
