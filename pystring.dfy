/** Python's `str.strip()` with no argument: it removes every leading and
    trailing character for which `str.isspace()` holds. The trimming is
    defined, as Python's `lstrip`, `rstrip` and `strip` also allow, over any
    set of characters to remove, and `Strip` is its whitespace instance. */
module PyString {

  /** The characters Python's `str.isspace()` accepts: the ASCII controls
      TAB..CR and FS..US, SPACE, NEL, NBSP, OGHAM SPACE MARK, the spaces
      U+2000..U+200A, the line and paragraph separators, NARROW NO-BREAK
      SPACE, MEDIUM MATHEMATICAL SPACE and IDEOGRAPHIC SPACE. */
  const Whitespace: set<char> :=
    {'\t', '\n', '\U{B}', '\U{C}', '\r', '\U{1C}', '\U{1D}', '\U{1E}', '\U{1F}', ' ',
     '\U{85}', '\U{A0}', '\U{1680}',
     '\U{2000}', '\U{2001}', '\U{2002}', '\U{2003}', '\U{2004}', '\U{2005}',
     '\U{2006}', '\U{2007}', '\U{2008}', '\U{2009}', '\U{200A}',
     '\U{2028}', '\U{2029}', '\U{202F}', '\U{205F}', '\U{3000}'}

  predicate IsSpace(c: char) {
    c in Whitespace
  }

  /** Among ASCII characters, exactly these ten are whitespace. */
  lemma AsciiSpace(c: char)
    requires c < '\U{80}'
    ensures IsSpace(c) <==> c in " \t\n\U{B}\U{C}\r\U{1C}\U{1D}\U{1E}\U{1F}"
  {
  }

  predicate AllIn(s: string, chars: set<char>) {
    forall k :: 0 <= k < |s| ==> s[k] in chars
  }

  predicate AllSpace(s: string) {
    AllIn(s, Whitespace)
  }

  /** `s.lstrip(chars)`: the longest suffix of `s` that does not start with a
      character of `chars`. */
  function TrimLeft(s: string, chars: set<char>): (r: string)
    ensures |r| <= |s| && r == s[|s| - |r|..]
    ensures r == [] || r[0] !in chars
    decreases |s|
  {
    if |s| > 0 && s[0] in chars then TrimLeft(s[1..], chars) else s
  }

  /** `s.rstrip(chars)`: the longest prefix of `s` that does not end with a
      character of `chars`. */
  function TrimRight(s: string, chars: set<char>): (r: string)
    ensures |r| <= |s| && r == s[..|r|]
    ensures r == [] || r[|r| - 1] !in chars
    decreases |s|
  {
    if |s| > 0 && s[|s| - 1] in chars then TrimRight(s[..|s| - 1], chars) else s
  }

  /** What `lstrip(chars)` removes is drawn from `chars`. */
  lemma {:induction false} TrimLeftRemoves(s: string, chars: set<char>)
    ensures AllIn(s[..|s| - |TrimLeft(s, chars)|], chars)
    decreases |s|
  {
    if |s| > 0 && s[0] in chars {
      var n := |s| - |TrimLeft(s, chars)|;
      TrimLeftRemoves(s[1..], chars);
      assert s[..n] == [s[0]] + s[1..][..n - 1];
    }
  }

  /** What `rstrip(chars)` removes is drawn from `chars`. */
  lemma {:induction false} TrimRightRemoves(s: string, chars: set<char>)
    ensures AllIn(s[|TrimRight(s, chars)|..], chars)
    decreases |s|
  {
    if |s| > 0 && s[|s| - 1] in chars {
      var init := s[..|s| - 1];
      var n := |TrimRight(s, chars)|;
      TrimRightRemoves(init, chars);
      assert s[n..] == init[n..] + [s[|s| - 1]];
    }
  }

  /** `s.strip(chars)`. */
  function StripChars(s: string, chars: set<char>): (r: string)
    ensures |r| <= |s|
    ensures r == [] || (r[0] !in chars && r[|r| - 1] !in chars)
  {
    TrimRight(TrimLeft(s, chars), chars)
  }

  /** What `strip(chars)` keeps is a contiguous piece of `s`, and only
      characters of `chars` lie on either side of it. */
  lemma StripCharsRemovesBorder(s: string, chars: set<char>)
    ensures var r := StripChars(s, chars);
            exists i :: 0 <= i <= |s| - |r| && r == s[i..i + |r|]
                        && AllIn(s[..i], chars) && AllIn(s[i + |r|..], chars)
  {
    var l := TrimLeft(s, chars);
    var r := TrimRight(l, chars);
    var i := |s| - |l|;
    TrimLeftRemoves(s, chars);
    TrimRightRemoves(l, chars);
    assert StripChars(s, chars) == r;
    assert r == s[i..i + |r|] by {
      assert l == s[i..] && r == l[..|r|];
    }
    assert AllIn(s[i + |r|..], chars) by {
      assert s[i + |r|..] == l[|r|..];
    }
  }

  /** A leading run of `chars` does not survive `lstrip(chars)`. */
  lemma {:induction false} TrimLeftPrefix(pre: string, s: string, chars: set<char>)
    requires AllIn(pre, chars)
    ensures TrimLeft(pre + s, chars) == TrimLeft(s, chars)
    decreases |pre|
  {
    if pre != [] {
      assert (pre + s)[1..] == pre[1..] + s;
      TrimLeftPrefix(pre[1..], s, chars);
    } else {
      assert pre + s == s;
    }
  }

  /** A trailing run of `chars` does not survive `rstrip(chars)`. */
  lemma {:induction false} TrimRightSuffix(s: string, post: string, chars: set<char>)
    requires AllIn(post, chars)
    ensures TrimRight(s + post, chars) == TrimRight(s, chars)
    decreases |post|
  {
    if post != [] {
      var p := post[..|post| - 1];
      assert (s + post)[..|s + post| - 1] == s + p;
      TrimRightSuffix(s, p, chars);
    } else {
      assert s + post == s;
    }
  }

  /** `lstrip(chars)` of nothing but `chars` is empty. */
  lemma {:induction false} TrimLeftAll(s: string, chars: set<char>)
    requires AllIn(s, chars)
    ensures TrimLeft(s, chars) == []
    decreases |s|
  {
    if s != [] {
      assert AllIn(s[1..], chars) by {
        forall k | 0 <= k < |s[1..]| ensures s[1..][k] in chars {
          assert s[1..][k] == s[k + 1];
        }
      }
      TrimLeftAll(s[1..], chars);
    }
  }

  /** A trailing run of `chars` does not survive `lstrip` followed by
      `rstrip`, whether or not `s` holds a character outside `chars`. */
  lemma {:induction false} StripCharsSuffix(s: string, post: string, chars: set<char>)
    requires AllIn(post, chars)
    ensures StripChars(s + post, chars) == StripChars(s, chars)
    decreases |s|
  {
    if s == [] {
      assert s + post == post;
      TrimLeftAll(post, chars);
    } else if s[0] in chars {
      assert (s + post)[1..] == s[1..] + post;
      StripCharsSuffix(s[1..], post, chars);
    } else {
      TrimRightSuffix(s, post, chars);
    }
  }

  lemma AppendAssoc(a: string, b: string, c: string)
    ensures a + b + c == a + (b + c)
  {
  }

  /** Runs of `chars` around `s` never change what `strip(chars)` returns. */
  lemma StripCharsIgnoresSurrounding(pre: string, s: string, post: string, chars: set<char>)
    requires AllIn(pre, chars) && AllIn(post, chars)
    ensures StripChars(pre + s + post, chars) == StripChars(s, chars)
  {
    AppendAssoc(pre, s, post);
    TrimLeftPrefix(pre, s + post, chars);
    StripCharsSuffix(s, post, chars);
  }

  /** `s.strip()`: `s` with its whitespace border removed on both sides. */
  function Strip(s: string): (r: string)
    ensures |r| <= |s|
    ensures r == [] || (!IsSpace(r[0]) && !IsSpace(r[|r| - 1]))
  {
    StripChars(s, Whitespace)
  }

  /** What `strip()` keeps is a contiguous piece of `s`, and only whitespace
      lies on either side of it. */
  lemma StripRemovesBorder(s: string)
    ensures var r := Strip(s);
            exists i :: 0 <= i <= |s| - |r| && r == s[i..i + |r|]
                        && AllSpace(s[..i]) && AllSpace(s[i + |r|..])
  {
    StripCharsRemovesBorder(s, Whitespace);
  }

  /** Surrounding whitespace never changes what `strip()` returns. */
  lemma StripIgnoresSurroundingSpace(pre: string, s: string, post: string)
    requires AllSpace(pre) && AllSpace(post)
    ensures Strip(pre + s + post) == Strip(s)
  {
    StripCharsIgnoresSurrounding(pre, s, post, Whitespace);
  }
}
