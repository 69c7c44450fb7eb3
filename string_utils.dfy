/** StringUtils.isBlank from Apache Commons Lang, the test that decides both
    whether a key is configured and whether a request has a body. */
module StringUtils {
  import opened JavaLang

  /** True when every character of `s` is whitespace (Character.isWhitespace). */
  function AllWhitespace(s: string): (r: bool)
    ensures r <==> forall i :: 0 <= i < |s| ==> IsWhitespace(s[i])
  {
    if s == [] then true
    else if !IsWhitespace(s[0]) then false
    else
      var rest := AllWhitespace(s[1..]);
      assert forall i :: 1 <= i < |s| ==> s[i] == s[1..][i - 1];
      rest
  }

  /** isBlank: null, the empty string, or only whitespace. */
  function IsBlank(s: Option<string>): (r: bool)
    ensures r <==> (s.None? || forall i :: 0 <= i < |s.value| ==> IsWhitespace(s.value[i]))
    ensures s.Some? && |s.value| > 0 && !IsWhitespace(s.value[0]) ==> !r
  {
    match s
    case None => true
    case Some(text) => AllWhitespace(text)
  }
}
