/** String operations the adapter performs with regular expressions. */
module Text {

  /** `/^https?:\/\//.test(s)`: `s` starts with `http://` or `https://`, case-sensitively. */
  predicate HasHttpScheme(s: string) {
    "http://" <= s || "https://" <= s
  }

  predicate EndsWithSlash(s: string) {
    |s| > 0 && s[|s| - 1] == '/'
  }

  predicate AllSlashes(s: string) {
    forall i :: 0 <= i < |s| ==> s[i] == '/'
  }

  /**
   * `s.replace(/\/+$/, '')`: the leftmost match of `\/+$` starts at the
   * beginning of the maximal run of trailing slashes, so that whole run goes.
   */
  function StripTrailingSlashes(s: string): (r: string)
    ensures r <= s
    ensures !EndsWithSlash(r)
    ensures AllSlashes(s[|r|..])
    decreases |s|
  {
    if EndsWithSlash(s) then StripTrailingSlashes(s[..|s| - 1]) else s
  }

  /**
   * The result is the only split of `s` into a part not ending in `/`
   * followed by slashes: stripping `r + t` gives back `r`.
   */
  lemma {:induction false} StripTrailingSlashesUnique(r: string, t: string)
    requires !EndsWithSlash(r) && AllSlashes(t)
    ensures StripTrailingSlashes(r + t) == r
    decreases |t|
  {
    if t == [] {
      assert r + t == r;
    } else {
      assert (r + t)[..|r + t| - 1] == r + t[..|t| - 1];
      StripTrailingSlashesUnique(r, t[..|t| - 1]);
    }
  }

  /** Stripping twice is stripping once. */
  lemma StripTrailingSlashesIdempotent(s: string)
    ensures StripTrailingSlashes(StripTrailingSlashes(s)) == StripTrailingSlashes(s)
  {
  }

  /** The length of the scheme prefix, `http://` or `https://`. */
  function SchemeLength(s: string): (n: nat)
    requires HasHttpScheme(s)
    ensures (n == 7 || n == 8) && n <= |s|
    ensures s[..n] == "http://" || s[..n] == "https://"
  {
    if "http://" <= s then 7 else 8
  }

  /**
   * A base URL with an http(s) scheme and some non-slash character after the
   * scheme keeps its scheme when its trailing slashes are stripped.
   */
  lemma StripKeepsScheme(s: string, i: nat)
    requires HasHttpScheme(s)
    requires SchemeLength(s) <= i < |s| && s[i] != '/'
    ensures HasHttpScheme(StripTrailingSlashes(s))
  {
    var r := StripTrailingSlashes(s);
    var n := SchemeLength(s);
    assert |r| > i;
    assert s[..n] == r[..n];
  }

  /** Both scheme prefixes start with `h`, so a string that does not cannot match. */
  lemma SchemeStartsWithH(s: string)
    requires s == [] || s[0] != 'h'
    ensures !HasHttpScheme(s)
  {
    if s != [] {
      assert "http://"[0] == 'h';
    }
  }

  /**
   * Neither scheme prefix contains `,`: text followed by nothing or by a
   * `,`-led rest matches exactly when the text alone does.
   */
  lemma SchemeThroughComma(a: string, rest: string)
    requires rest == [] || rest[0] == ','
    ensures HasHttpScheme(a + rest) <==> HasHttpScheme(a)
  {
    if rest != [] {
      PrefixThroughComma("http://", a, rest);
      PrefixThroughComma("https://", a, rest);
    } else {
      assert a + rest == a;
    }
  }

  lemma PrefixThroughComma(p: string, a: string, rest: string)
    requires forall i :: 0 <= i < |p| ==> p[i] != ','
    requires rest != [] && rest[0] == ','
    ensures p <= a + rest <==> p <= a
  {
    if |a| < |p| {
      assert (a + rest)[|a|] == ',';
    } else {
      assert (a + rest)[..|p|] == a[..|p|];
    }
  }
}
