/**
 * The API base address and the test Uri.IsWellFormedUriString(s, UriKind.Absolute)
 * that decides whether an image reference is already a full URL or a bare
 * file name on the API's image endpoint.
 */
module Web {
  import opened Text

  /** ApiConfiguration.BaseUrl in the development configuration. */
  const BaseUrl: string := "https://localhost:7027/api"

  /** The characters RFC 3986 allows in a scheme after its first letter. */
  predicate IsSchemeChar(c: char) {
    IsLetter(c) || IsDigit(c) || c == '+' || c == '-' || c == '.'
  }

  /** The length of the longest prefix of s made of scheme characters. */
  function SchemeLength(s: string): (n: nat)
    ensures n <= |s|
    ensures forall i :: 0 <= i < n ==> IsSchemeChar(s[i])
    ensures n < |s| ==> !IsSchemeChar(s[n])
  {
    if s != [] && IsSchemeChar(s[0]) then 1 + SchemeLength(s[1..]) else 0
  }

  /**
   * An absolute URI with an authority: a scheme starting with a letter,
   * then "://", then at least one more character.
   */
  predicate IsAbsoluteUri(s: string) {
    var n := SchemeLength(s);
    0 < n && IsLetter(s[0]) && n + 3 < |s| && s[n..n + 3] == "://"
  }

  /** Uri.IsWellFormedUriString(s, UriKind.Absolute): an absolute URI with no whitespace in it. */
  predicate IsWellFormedAbsoluteUri(s: string) {
    IsAbsoluteUri(s) && forall i :: 0 <= i < |s| ==> !IsWhiteSpace(s[i])
  }

  /** A string without a ':' is never an absolute URI: a bare file name is treated as one. */
  lemma NoColonNotAbsolute(s: string)
    requires ':' !in s
    ensures !IsWellFormedAbsoluteUri(s)
  {
  }

  /** The configured base address passes the well-formedness test the service constructor makes. */
  lemma BaseUrlIsWellFormed()
    ensures IsWellFormedAbsoluteUri(BaseUrl)
  {
    BaseUrlIsAbsolute();
    BaseUrlIsPrintable();
    forall i | 0 <= i < |BaseUrl| ensures !IsWhiteSpace(BaseUrl[i]) {
      PrintableIsNotWhiteSpace(BaseUrl[i]);
    }
  }

  lemma BaseUrlIsAbsolute()
    ensures IsAbsoluteUri(BaseUrl)
  {
    BaseUrlScheme();
    BaseUrlSeparator();
  }

  lemma BaseUrlScheme()
    ensures SchemeLength(BaseUrl) == 5
  {
    assert BaseUrl == "https" + "://localhost:7027/api";
    SchemeLengthAppend("https", "://localhost:7027/api");
  }

  lemma BaseUrlSeparator()
    ensures |BaseUrl| == 26 && IsLetter(BaseUrl[0]) && BaseUrl[5..8] == "://"
  {
  }

  lemma BaseUrlIsPrintable()
    ensures forall i :: 0 <= i < |BaseUrl| ==> '!' <= BaseUrl[i] <= '~'
  {
  }

  /** A prefix of scheme characters adds its length to the scheme. */
  lemma {:induction false} SchemeLengthAppend(p: string, r: string)
    requires forall i :: 0 <= i < |p| ==> IsSchemeChar(p[i])
    ensures SchemeLength(p + r) == |p| + SchemeLength(r)
  {
    if p != [] {
      assert (p + r)[1..] == p[1..] + r;
      SchemeLengthAppend(p[1..], r);
    } else {
      assert p + r == r;
    }
  }

  /** No printable ASCII character other than the space is whitespace. */
  lemma PrintableIsNotWhiteSpace(c: char)
    requires '!' <= c <= '~'
    ensures !IsWhiteSpace(c)
  {
  }
}
