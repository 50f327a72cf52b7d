/** OAuth scope strings: JavaScript's split(/\s+/).filter(Boolean) and join(' '). */
module Scopes {

  /** The characters matched by \s in a JavaScript regular expression. */
  predicate IsSpace(c: char) {
    || '\U{0009}' <= c <= '\U{000D}' || c == ' ' || c == '\U{00A0}' || c == '\U{1680}'
    || '\U{2000}' <= c <= '\U{200A}' || c == '\U{2028}' || c == '\U{2029}' || c == '\U{202F}'
    || c == '\U{205F}' || c == '\U{3000}' || c == '\U{FEFF}'
  }

  predicate IsWord(w: string) {
    w != "" && forall i :: 0 <= i < |w| ==> !IsSpace(w[i])
  }

  /** The leading run of characters that are not white space. */
  function FirstRun(s: string): (n: nat)
    ensures n <= |s|
    ensures forall i :: 0 <= i < n ==> !IsSpace(s[i])
    ensures n < |s| ==> IsSpace(s[n])
  {
    if s == "" || IsSpace(s[0]) then 0 else 1 + FirstRun(s[1..])
  }

  /** The maximal runs of non-space characters, in order. */
  function Words(s: string): (ws: seq<string>)
    ensures forall i :: 0 <= i < |ws| ==> IsWord(ws[i])
    decreases |s|
  {
    if s == "" then []
    else if IsSpace(s[0]) then Words(s[1..])
    else var n := FirstRun(s); [s[..n]] + Words(s[n..])
  }

  function Join(ws: seq<string>): string {
    if |ws| == 0 then "" else if |ws| == 1 then ws[0] else ws[0] + " " + Join(ws[1..])
  }

  predicate Within(ws: seq<string>, allowed: seq<string>) {
    forall i :: 0 <= i < |ws| ==> ws[i] in allowed
  }

  lemma {:induction false} FirstRunOfWord(w: string, rest: string)
    requires IsWord(w)
    requires rest == "" || IsSpace(rest[0])
    ensures FirstRun(w + rest) == |w|
  {
    assert (w + rest)[0] == w[0];
    if |w| == 1 {
      assert (w + rest)[1..] == rest;
    } else {
      assert (w + rest)[1..] == w[1..] + rest;
      FirstRunOfWord(w[1..], rest);
    }
  }

  lemma WordThenRest(w: string, rest: string)
    requires IsWord(w)
    requires rest == "" || IsSpace(rest[0])
    ensures Words(w + rest) == [w] + Words(rest)
  {
    FirstRunOfWord(w, rest);
    var s := w + rest;
    assert s[..|w|] == w && s[|w|..] == rest && s[0] == w[0];
  }

  lemma OneWord(w: string)
    requires IsWord(w)
    ensures Words(w) == [w]
  {
    WordThenRest(w, "");
    assert w + "" == w;
  }

  lemma WordSpaceRest(w: string, rest: string)
    requires IsWord(w)
    ensures Words(w + " " + rest) == [w] + Words(rest)
  {
    var tail := " " + rest;
    assert tail[1..] == rest;
    WordThenRest(w, tail);
    assert w + " " + rest == w + tail;
  }

  /** Splitting what was joined gives back the same words, in the same order. */
  lemma {:induction false} SplitJoin(ws: seq<string>)
    requires forall i :: 0 <= i < |ws| ==> IsWord(ws[i])
    ensures Words(Join(ws)) == ws
  {
    if |ws| == 1 {
      OneWord(ws[0]);
    } else if |ws| > 1 {
      SplitJoin(ws[1..]);
      WordSpaceRest(ws[0], Join(ws[1..]));
    }
  }

  /** The scope of a refreshed OAuth access token: the requested words, or the stored scope. */
  function Narrowed(stored: string, requested: string): string {
    if |Words(requested)| > 0 then Join(Words(requested)) else stored
  }

  predicate NarrowingAllowed(stored: string, requested: string) {
    Within(Words(requested), Words(stored))
  }

  /** A narrowed scope has no word the stored scope lacks, and keeps exactly the requested words. */
  lemma NarrowedNeverGrows(stored: string, requested: string)
    requires NarrowingAllowed(stored, requested)
    ensures Within(Words(Narrowed(stored, requested)), Words(stored))
    ensures Words(requested) != [] ==> Words(Narrowed(stored, requested)) == Words(requested)
  {
    SplitJoin(Words(requested));
  }

  lemma WithinTransitive(a: seq<string>, b: seq<string>, c: seq<string>)
    requires Within(a, b) && Within(b, c)
    ensures Within(a, c)
  {
  }

  function DefaultWords(admin: bool): seq<string> {
    ["openid", "profile", "email", "api.read"] + if admin then ["api.write"] else []
  }

  /** Scope of a first-party login. */
  function DefaultScope(admin: bool): string { Join(DefaultWords(admin)) }

  /** Its words are the four standard ones, and api.write for an administrator only. */
  lemma DefaultScopeWords(admin: bool)
    ensures Words(DefaultScope(admin)) == DefaultWords(admin)
    ensures "api.write" in Words(DefaultScope(admin)) <==> admin
  {
    assert IsWord("openid") && IsWord("profile") && IsWord("email") && IsWord("api.read") && IsWord("api.write");
    SplitJoin(DefaultWords(admin));
    assert "api.write" != "api.read";
  }
}
