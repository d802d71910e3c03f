/** Locating the JSON object inside a language-model reply (server/server.js,
    `extractJson` and the `extractJson(raw) ?? raw` fallback in
    `generateDirective`). */
module JsonText {
  import opened Wrappers

  /** `s.indexOf(c)`: the first position of `c` in `s`, or -1. */
  function IndexOf(s: string, c: char): (r: int)
    ensures -1 <= r < |s|
    ensures r == -1 <==> c !in s
    ensures r >= 0 ==> s[r] == c && forall i :: 0 <= i < r ==> s[i] != c
  {
    if s == [] then -1
    else if s[0] == c then 0
    else
      var k := IndexOf(s[1..], c);
      if k == -1 then -1 else k + 1
  }

  /** `s.lastIndexOf(c)`: the last position of `c` in `s`, or -1. */
  function LastIndexOf(s: string, c: char): (r: int)
    ensures -1 <= r < |s|
    ensures r == -1 <==> c !in s
    ensures r >= 0 ==> s[r] == c && forall i :: r < i < |s| ==> s[i] != c
  {
    if s == [] then -1
    else if s[|s| - 1] == c then |s| - 1
    else LastIndexOf(s[..|s| - 1], c)
  }

  /** Some `{` stands before some `}` in `text`. */
  ghost predicate HasBracePair(text: string) {
    exists i, j :: 0 <= i < j < |text| && text[i] == '{' && text[j] == '}'
  }

  /** `extractJson(text)`: the slice from the first `{` through the last `}`,
      or None (JavaScript's null) when the text is empty, lacks either brace,
      or its last `}` does not come after its first `{`. */
  function ExtractJson(text: string): (r: Option<string>)
    ensures r.None? <==> !HasBracePair(text)
    ensures r.Some? ==>
      var first, last := IndexOf(text, '{'), LastIndexOf(text, '}');
      && 0 <= first < last < |text|
      && r.value == text[first..last + 1]
    ensures r.Some? ==> |r.value| >= 2 && r.value[0] == '{' && r.value[|r.value| - 1] == '}'
  {
    if text == "" then None
    else
      var first := IndexOf(text, '{');
      var last := LastIndexOf(text, '}');
      if first == -1 || last == -1 || last <= first then None
      else Some(text[first..last + 1])
  }

  /** `extractJson(raw) ?? raw`: the text handed to `JSON.parse`. Text with a
      brace pair is cut down to a braced slice; other text goes as it is. */
  function JsonCandidate(raw: string): (r: string)
    ensures !HasBracePair(raw) ==> r == raw
    ensures HasBracePair(raw) ==> |r| >= 2 && r[0] == '{' && r[|r| - 1] == '}' && |r| <= |raw|
    ensures HasBracePair(raw) ==> r == raw[IndexOf(raw, '{')..LastIndexOf(raw, '}') + 1]
  {
    ExtractJson(raw).GetOr(raw)
  }

  /** A reply that wraps one object in prose without braces hands exactly that
      object to `JSON.parse`. */
  lemma CandidateInProse(pre: string, core: string, post: string)
    requires '{' !in pre && '}' !in post
    requires |core| >= 2 && core[0] == '{' && core[|core| - 1] == '}'
    ensures JsonCandidate(pre + core + post) == core
  {
    var raw := pre + core + post;
    var first, last := |pre|, |pre| + |core| - 1;
    assert raw[first] == '{' && raw[last] == '}';
    assert forall i :: 0 <= i < first ==> raw[i] == pre[i];
    assert forall i :: last < i < |raw| ==> raw[i] == post[i - |pre| - |core|];
    assert IndexOf(raw, '{') == first;
    assert LastIndexOf(raw, '}') == last;
    assert raw[first..last + 1] == core;
  }

  /** Extracting again from an extracted slice returns it unchanged. */
  lemma ExtractIdempotent(text: string)
    requires ExtractJson(text).Some?
    ensures ExtractJson(ExtractJson(text).value) == ExtractJson(text)
  {
    var r := ExtractJson(text).value;
    assert IndexOf(r, '{') == 0;
    assert LastIndexOf(r, '}') == |r| - 1;
    assert r[0..|r|] == r;
  }

  /** Text that is already a braced object is handed to `JSON.parse` as it is;
      text without a brace pair is handed over raw. */
  lemma CandidateCases(raw: string)
    ensures !HasBracePair(raw) ==> JsonCandidate(raw) == raw
    ensures |raw| >= 2 && raw[0] == '{' && raw[|raw| - 1] == '}' ==> JsonCandidate(raw) == raw
  {
    if |raw| >= 2 && raw[0] == '{' && raw[|raw| - 1] == '}' {
      assert IndexOf(raw, '{') == 0;
      assert LastIndexOf(raw, '}') == |raw| - 1;
      assert raw[0..|raw|] == raw;
    }
  }
}
