/** `String.prototype.trim` as the popup uses it: the textarea value counts as empty when
    nothing but white space and line terminators is left after trimming. */
module JsText {

  /** The characters ECMAScript's `trim` removes: WhiteSpace (tab, vertical tab, form feed,
      no-break space, byte order mark and every space separator of Unicode category Zs)
      and LineTerminator (line feed, carriage return, line and paragraph separators). */
  predicate IsTrimmable(c: char) {
    c == '\t' || c == '\n' || c == '\U{000B}' || c == '\U{000C}' || c == '\r' || c == ' '
    || c == '\U{00A0}' || c == '\U{1680}' || ('\U{2000}' <= c <= '\U{200A}')
    || c == '\U{2028}' || c == '\U{2029}' || c == '\U{202F}' || c == '\U{205F}'
    || c == '\U{3000}' || c == '\U{FEFF}'
  }

  /** True when every character of `s` is trimmable. */
  predicate IsBlank(s: string) {
    forall i :: 0 <= i < |s| ==> IsTrimmable(s[i])
  }

  /** `s` without its leading trimmable characters: empty or starting with a character that
      stays, and everything dropped was trimmable. */
  function TrimStart(s: string): (r: string)
    ensures |r| <= |s|
    ensures r != [] ==> !IsTrimmable(r[0])
    ensures IsBlank(s[..|s| - |r|])
  {
    if s != [] && IsTrimmable(s[0]) then TrimStart(s[1..]) else s
  }

  /** `s` without its trailing trimmable characters: empty or ending with a character that
      stays, and everything dropped was trimmable. */
  function TrimEnd(s: string): (r: string)
    ensures |r| <= |s|
    ensures r != [] ==> !IsTrimmable(r[|r| - 1])
    ensures IsBlank(s[|r|..])
  {
    if s != [] && IsTrimmable(s[|s| - 1]) then TrimEnd(s[..|s| - 1]) else s
  }

  /** What `TrimStart` keeps is the rest of `s`. */
  lemma {:induction false} TrimStartIsSuffix(s: string)
    ensures TrimStart(s) == s[|s| - |TrimStart(s)|..]
  {
    if s != [] && IsTrimmable(s[0]) {
      TrimStartIsSuffix(s[1..]);
    }
  }

  /** What `TrimEnd` keeps is the beginning of `s`. */
  lemma {:induction false} TrimEndIsPrefix(s: string)
    ensures TrimEnd(s) == s[..|TrimEnd(s)|]
  {
    if s != [] && IsTrimmable(s[|s| - 1]) {
      TrimEndIsPrefix(s[..|s| - 1]);
    }
  }

  /** `s.trim()`. */
  function Trim(s: string): string {
    TrimEnd(TrimStart(s))
  }

  /** The trimmed text is a contiguous slice of the input, with no trimmable character at
      either end, and only trimmable characters were removed around it. */
  lemma TrimIsCore(s: string)
    ensures exists i :: 0 <= i <= i + |Trim(s)| <= |s| && Trim(s) == s[i..i + |Trim(s)|]
                        && IsBlank(s[..i]) && IsBlank(s[i + |Trim(s)|..])
    ensures Trim(s) != [] ==> !IsTrimmable(Trim(s)[0]) && !IsTrimmable(Trim(s)[|Trim(s)| - 1])
  {
    var a := TrimStart(s);
    var i := |s| - |a|;
    var t := Trim(s);
    TrimStartIsSuffix(s);
    TrimEndIsPrefix(a);
    assert t == a[..|t|];
    assert s[i..i + |t|] == t;
    assert s[i + |t|..] == a[|t|..];
  }

  /** The textarea counts as empty (`!value.trim()`) exactly when it holds only trimmable
      characters. */
  lemma {:induction false} TrimEmptyIffBlank(s: string)
    ensures Trim(s) == [] <==> IsBlank(s)
  {
    var a := TrimStart(s);
    TrimStartIsSuffix(s);
    TrimEndIsPrefix(a);
    if Trim(s) == [] {
      if a != [] {
        assert false;
      }
      assert s[..|s|] == s;
    } else if IsBlank(s) {
      assert false;
    }
  }

  /** Trimming twice changes nothing. */
  lemma TrimIdempotent(s: string)
    ensures Trim(Trim(s)) == Trim(s)
  {
    var t := Trim(s);
    if t != [] {
      TrimIsCore(s);
      assert TrimStart(t) == t;
    }
  }
}
