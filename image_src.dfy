/** `normalizeImageSrc` of lib/utils.ts: makes a relative avatar path root-relative. */
module ImageSrc {
  import opened Wrappers
  import opened Text

  /** `/^https?:\/\//i`: an absolute http or https URL, scheme in any letter case. */
  predicate IsHttpUrl(s: string) {
    StartsWith(ToLower(s), "http://") || StartsWith(ToLower(s), "https://")
  }

  /** The number of `/` characters at the front of `s`. */
  function LeadingSlashes(s: string): (n: nat)
    ensures n <= |s|
    ensures forall i :: 0 <= i < n ==> s[i] == '/'
    ensures n < |s| ==> s[n] != '/'
  {
    if s != [] && s[0] == '/' then 1 + LeadingSlashes(s[1..]) else 0
  }

  /** `src.replace(/^\.\/+/, '/')`: a leading `.` and the run of `/` after it become one `/`. */
  function ReplaceDotSlashes(s: string): string {
    if |s| >= 2 && s[0] == '.' && s[1] == '/' then
      "/" + s[1 + LeadingSlashes(s[1..])..]
    else s
  }

  /** `normalizeImageSrc(src)`; `None` stands for `null` and `undefined`. */
  function NormalizeImageSrc(src: Option<string>): (r: string)
    ensures src == None || src == Some("") ==> r == ""
    ensures src.Some? && src.value != "" ==> r != ""
    ensures src.Some? && (IsHttpUrl(src.value) || StartsWith(src.value, "/")) ==> r == src.value
  {
    match src
    case None => ""
    case Some(s) =>
      if s == "" then ""
      else if IsHttpUrl(s) then s
      else if StartsWith(s, "/") then s
      else ReplaceDotSlashes(s)
  }

  /** What the last step does: either the string is kept, or `./`, `.//`, ... is replaced by one `/`. */
  lemma NormalizeRelative(s: string)
    requires s != "" && !IsHttpUrl(s) && !StartsWith(s, "/")
    ensures |s| >= 2 && s[0] == '.' && s[1] == '/' ==>
      exists k :: 2 <= k <= |s| && (forall i :: 1 <= i < k ==> s[i] == '/') && (k < |s| ==> s[k] != '/')
        && NormalizeImageSrc(Some(s)) == "/" + s[k..]
    ensures !(|s| >= 2 && s[0] == '.' && s[1] == '/') ==> NormalizeImageSrc(Some(s)) == s
  {
    if |s| >= 2 && s[0] == '.' && s[1] == '/' {
      var k := 1 + LeadingSlashes(s[1..]);
      assert forall i :: 1 <= i < k ==> s[i] == s[1..][i - 1];
      assert k < |s| ==> s[k] == s[1..][k - 1];
      assert s[1..][0] == '/';
      assert NormalizeImageSrc(Some(s)) == "/" + s[k..];
    }
  }

  /** Normalising twice is normalising once. */
  lemma NormalizeIdempotent(src: Option<string>)
    ensures NormalizeImageSrc(Some(NormalizeImageSrc(src))) == NormalizeImageSrc(src)
  {
    var r := NormalizeImageSrc(src);
    if r != "" {
      var s := src.value;
      if !IsHttpUrl(s) && !StartsWith(s, "/") && |s| >= 2 && s[0] == '.' && s[1] == '/' {
        assert r[0] == '/' && StartsWith(r, "/");
      }
    }
  }
}
