/** Python string helpers the daemon relies on: optional values, truthiness of an
    optional string, and `str.strip`. */
module Strings {

  datatype Option<+T> = None | Some(value: T)

  /** Python's `if x:` on a value that is either `None` or a `str`. */
  predicate Truthy(o: Option<string>) {
    o.Some? && o.value != []
  }

  /** Python's `x or ""` on an optional string. */
  function OrEmpty(o: Option<string>): (s: string)
    ensures Truthy(o) ==> s == o.value
    ensures !Truthy(o) ==> s == []
  {
    if o.Some? then o.value else []
  }

  /** The code points for which Python's `str.isspace()` holds; `str.strip()`
      without arguments removes exactly these. */
  const Whitespace: set<char> := {
    '\t', '\n', '\U{B}', '\U{C}', '\r', '\U{1C}', '\U{1D}', '\U{1E}', '\U{1F}', ' ',
    '\U{85}', '\U{A0}', '\U{1680}',
    '\U{2000}', '\U{2001}', '\U{2002}', '\U{2003}', '\U{2004}', '\U{2005}',
    '\U{2006}', '\U{2007}', '\U{2008}', '\U{2009}', '\U{200A}',
    '\U{2028}', '\U{2029}', '\U{202F}', '\U{205F}', '\U{3000}'
  }

  /** Removes the leading characters that belong to `cs`. */
  function TrimStart(s: string, cs: set<char>): (r: string)
    ensures |r| <= |s| && r == s[|s| - |r|..]
    ensures forall i :: 0 <= i < |s| - |r| ==> s[i] in cs
    ensures r != [] ==> r[0] !in cs
  {
    if s != [] && s[0] in cs then TrimStart(s[1..], cs) else s
  }

  /** Removes the trailing characters that belong to `cs`. */
  function TrimEnd(s: string, cs: set<char>): (r: string)
    ensures |r| <= |s| && r == s[..|r|]
    ensures forall i :: |r| <= i < |s| ==> s[i] in cs
    ensures r != [] ==> r[|r| - 1] !in cs
  {
    if s != [] && s[|s| - 1] in cs then TrimEnd(s[..|s| - 1], cs) else s
  }

  /** Python's `s.strip(cs)`: the longest infix of `s` that neither starts nor
      ends with a character of `cs`; `Strip(s, Whitespace)` is `s.strip()`. */
  function Strip(s: string, cs: set<char>): (r: string)
    ensures |r| <= |s|
    ensures r != [] ==> r[0] !in cs && r[|r| - 1] !in cs
    ensures forall c :: c in r ==> c in s
  {
    TrimEnd(TrimStart(s, cs), cs)
  }

  /** A prefix made only of stripped characters does not change `TrimStart`. */
  lemma {:induction false} TrimStartSkips(a: string, t: string, cs: set<char>)
    requires forall i :: 0 <= i < |a| ==> a[i] in cs
    ensures TrimStart(a + t, cs) == TrimStart(t, cs)
  {
    if a != [] {
      assert (a + t)[0] == a[0] && (a + t)[1..] == a[1..] + t;
      TrimStartSkips(a[1..], t, cs);
    } else {
      assert a + t == t;
    }
  }

  /** A suffix made only of stripped characters does not change `TrimEnd`. */
  lemma {:induction false} TrimEndSkips(t: string, b: string, cs: set<char>)
    requires forall i :: 0 <= i < |b| ==> b[i] in cs
    ensures TrimEnd(t + b, cs) == TrimEnd(t, cs)
  {
    if b != [] {
      assert (t + b)[|t + b| - 1] == b[|b| - 1];
      assert (t + b)[..|t + b| - 1] == t + b[..|b| - 1];
      TrimEndSkips(t, b[..|b| - 1], cs);
    } else {
      assert t + b == t;
    }
  }

  /** `Strip` is characterised by its input's shape: padding `m` on both sides
      with stripped characters and stripping gives back `m`, whenever `m` is
      empty or neither starts nor ends with a stripped character. */
  lemma StripUnpads(a: string, m: string, b: string, cs: set<char>)
    requires forall i :: 0 <= i < |a| ==> a[i] in cs
    requires forall i :: 0 <= i < |b| ==> b[i] in cs
    requires m != [] ==> m[0] !in cs && m[|m| - 1] !in cs
    ensures Strip(a + m + b, cs) == m
  {
    assert a + m + b == a + (m + b);
    TrimStartSkips(a, m + b, cs);
    if m == [] {
      assert m + b == b;
      TrimStartSkips(b, [], cs);
      assert b + [] == b;
    } else {
      assert TrimStart(m + b, cs) == m + b;
    }
    TrimEndSkips(m, b, cs);
    if m != [] {
      assert TrimEnd(m, cs) == m;
    }
  }

  /** Stripping twice is stripping once. */
  lemma StripIdempotent(s: string, cs: set<char>)
    ensures Strip(Strip(s, cs), cs) == Strip(s, cs)
  {
    var r := Strip(s, cs);
    StripUnpads([], r, [], cs);
    assert [] + r + [] == r;
  }
}
