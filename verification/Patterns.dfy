/** Regular expressions by their languages. The seven secret patterns and the secret-key pattern are
    written out; which of several possible matches a regex engine prefers is left to the engine. */
module Patterns {
  import opened Wrappers

  datatype Class =
    | Alnum          // [A-Za-z0-9]
    | AlnumDash      // [A-Za-z0-9_\-]
    | AlnumDashFold  // the same, ignoring case
    | UpperAlnum     // [A-Z0-9]
    | TokenChar      // [A-Za-z0-9_\-\.=]
    | GitHubKind     // [pousr]
    | Space          // \s
    | Quote          // ["']
    | Assign         // [=:]
    | Joiner         // [_-]

  datatype Re =
    | Lit(text: string)
    | Fold(text: string)                              // a literal in lower case, ignoring case
    | Chars(cls: Class, min: nat, max: Option<nat>)   // a class repeated min to max times
    | Cat(first: Re, second: Re)
    | Alt(left: Re, right: Re)

  predicate IsAlnum(c: char) {
    'A' <= c <= 'Z' || 'a' <= c <= 'z' || '0' <= c <= '9'
  }

  predicate InClass(cls: Class, c: char) {
    match cls
    case Alnum => IsAlnum(c)
    case AlnumDash => IsAlnum(c) || c == '_' || c == '-'
    case AlnumDashFold => IsAlnum(c) || c == '_' || c == '-' || c in "\U{0130}\U{0131}\U{017F}\U{212A}"
    case UpperAlnum => 'A' <= c <= 'Z' || '0' <= c <= '9'
    case TokenChar => IsAlnum(c) || c in "_-.="
    case GitHubKind => c in "pousr"
    case Space => '\U{0009}' <= c <= '\U{000D}' || '\U{001C}' <= c <= '\U{0020}' || c in "\U{0085}\U{00A0}\U{1680}"
                  || '\U{2000}' <= c <= '\U{200A}' || c in "\U{2028}\U{2029}\U{202F}\U{205F}\U{3000}"
    case Quote => c == '"' || c == '\''
    case Assign => c == '=' || c == ':'
    case Joiner => c == '_' || c == '-'
  }

  /** Whether c matches the lower-case letter p when case is ignored; three letters have extra forms. */
  predicate FoldsTo(p: char, c: char) {
    || c == p
    || ('a' <= p <= 'z' && 'A' <= c <= 'Z' && p as int - 'a' as int == c as int - 'A' as int)
    || (p == 'i' && (c == '\U{0130}' || c == '\U{0131}'))
    || (p == 's' && c == '\U{017F}')
    || (p == 'k' && c == '\U{212A}')
  }

  ghost predicate Matches(re: Re, s: string) {
    match re
    case Lit(text) => s == text
    case Fold(text) => |s| == |text| && forall k :: 0 <= k < |s| ==> FoldsTo(text[k], s[k])
    case Chars(cls, min, max) =>
      min <= |s| && (max.Some? ==> |s| <= max.value) && forall k :: 0 <= k < |s| ==> InClass(cls, s[k])
    case Cat(first, second) => exists k :: 0 <= k <= |s| && Matches(first, s[..k]) && Matches(second, s[k..])
    case Alt(left, right) => Matches(left, s) || Matches(right, s)
  }

  /** Some substring of s matches. */
  ghost predicate Occurs(re: Re, s: string) {
    exists i, j :: 0 <= i <= j <= |s| && Matches(re, s[i..j])
  }

  // ---------- syntactic facts about all matches ----------

  /** No match contains a square bracket. */
  predicate BracketFree(re: Re) {
    match re
    case Lit(text) => forall k :: 0 <= k < |text| ==> text[k] != '[' && text[k] != ']'
    case Fold(text) => forall k :: 0 <= k < |text| ==> 'a' <= text[k] <= 'z'
    case Chars(_, _, _) => true
    case Cat(first, second) => BracketFree(first) && BracketFree(second)
    case Alt(left, right) => BracketFree(left) && BracketFree(right)
  }

  /** Every match is at least this long. */
  function MinLength(re: Re): nat {
    match re
    case Lit(text) => |text|
    case Fold(text) => |text|
    case Chars(_, min, _) => min
    case Cat(first, second) => MinLength(first) + MinLength(second)
    case Alt(left, right) => if MinLength(left) <= MinLength(right) then MinLength(left) else MinLength(right)
  }

  const MARKER := "[REDACTED]"

  predicate IsMarkerLetter(c: char) {
    || c == 'R' || c == 'E' || c == 'D' || c == 'A' || c == 'C' || c == 'T'
    || c == 'r' || c == 'e' || c == 'd' || c == 'a' || c == 'c' || c == 't'
  }

  /** Every match contains a character that the word REDACTED does not have in either case. */
  predicate ForeignToMarker(re: Re) {
    match re
    case Lit(text) => exists k :: 0 <= k < |text| && !IsMarkerLetter(text[k])
    case Fold(text) => exists k :: 0 <= k < |text| && 'a' <= text[k] <= 'z' && !IsMarkerLetter(text[k])
    case Chars(_, _, _) => false
    case Cat(first, second) => ForeignToMarker(first) || ForeignToMarker(second)
    case Alt(left, right) => ForeignToMarker(left) && ForeignToMarker(right)
  }

  lemma {:induction false} MatchHasNoBracket(re: Re, s: string)
    requires BracketFree(re) && Matches(re, s)
    ensures '[' !in s && ']' !in s
  {
    match re
    case Cat(first, second) =>
      var k :| 0 <= k <= |s| && Matches(first, s[..k]) && Matches(second, s[k..]);
      MatchHasNoBracket(first, s[..k]);
      MatchHasNoBracket(second, s[k..]);
      assert s == s[..k] + s[k..];
    case Alt(left, right) =>
      if Matches(left, s) { MatchHasNoBracket(left, s); } else { MatchHasNoBracket(right, s); }
    case Lit(_) =>
    case Fold(_) =>
    case Chars(cls, _, _) => assert !InClass(cls, '[') && !InClass(cls, ']');
  }

  lemma {:induction false} MatchIsLong(re: Re, s: string)
    requires Matches(re, s)
    ensures |s| >= MinLength(re)
  {
    match re
    case Cat(first, second) =>
      var k :| 0 <= k <= |s| && Matches(first, s[..k]) && Matches(second, s[k..]);
      MatchIsLong(first, s[..k]);
      MatchIsLong(second, s[k..]);
    case Alt(left, right) =>
      if Matches(left, s) { MatchIsLong(left, s); } else { MatchIsLong(right, s); }
    case Lit(_) =>
    case Fold(_) =>
    case Chars(_, _, _) =>
  }

  lemma {:induction false} MatchIsForeign(re: Re, s: string)
    requires ForeignToMarker(re) && Matches(re, s)
    ensures exists k :: 0 <= k < |s| && !IsMarkerLetter(s[k])
  {
    match re
    case Cat(first, second) =>
      var k :| 0 <= k <= |s| && Matches(first, s[..k]) && Matches(second, s[k..]);
      if ForeignToMarker(first) {
        MatchIsForeign(first, s[..k]);
        var m :| 0 <= m < k && !IsMarkerLetter(s[..k][m]);
        assert !IsMarkerLetter(s[m]);
      } else {
        MatchIsForeign(second, s[k..]);
        var m :| 0 <= m < |s| - k && !IsMarkerLetter(s[k..][m]);
        assert !IsMarkerLetter(s[k + m]);
      }
    case Alt(left, right) =>
      if Matches(left, s) { MatchIsForeign(left, s); } else { MatchIsForeign(right, s); }
    case Lit(_) =>
    case Fold(text) =>
      var k :| 0 <= k < |text| && 'a' <= text[k] <= 'z' && !IsMarkerLetter(text[k]);
      FoldsForeign(text[k], s[k]);
    case Chars(_, _, _) =>
  }

  lemma FoldsForeign(p: char, c: char)
    requires 'a' <= p <= 'z' && !IsMarkerLetter(p) && FoldsTo(p, c)
    ensures !IsMarkerLetter(c)
  {
  }

  // ---------- the patterns ----------

  function Seq3(a: Re, b: Re, c: Re): Re {
    Cat(a, Cat(b, c))
  }

  /** Any of the words, ignoring case. */
  function AnyWord(words: seq<string>): Re
    requires words != []
  {
    if |words| == 1 then Fold(words[0]) else Alt(Fold(words[0]), AnyWord(words[1..]))
  }

  /** first[_-]?key, ignoring case. */
  function KeyName(first: string): Re {
    Seq3(Fold(first), Chars(Joiner, 0, Some(1)), Fold("key"))
  }

  const OPENAI_KEY := Alt(Cat(Lit("sk-proj-"), Chars(AlnumDash, 20, None)), Cat(Lit("sk-"), Chars(Alnum, 40, None)))
  const ANTHROPIC_KEY := Cat(Lit("sk-ant-"), Chars(AlnumDash, 40, None))
  const GITHUB_TOKEN := Cat(Lit("gh"), Seq3(Chars(GitHubKind, 1, Some(1)), Lit("_"), Chars(Alnum, 36, None)))
  const GOOGLE_KEY := Cat(Lit("AIza"), Chars(AlnumDash, 35, Some(35)))
  const BEARER_TOKEN := Seq3(Lit("Bearer"), Chars(Space, 1, None), Chars(TokenChar, 20, None))
  const SECRET_LABEL :=
    Alt(AnyWord(["password", "passwd", "secret", "token"]), Alt(KeyName("api"), KeyName("access")))
  const SECRET_VALUE :=
    Seq3(Chars(Quote, 0, Some(1)), Chars(AlnumDashFold, 16, None), Chars(Quote, 0, Some(1)))
  const LABELED_SECRET :=
    Cat(SECRET_LABEL, Cat(Seq3(Chars(Space, 0, None), Chars(Assign, 1, Some(1)), Chars(Space, 0, None)), SECRET_VALUE))
  const AWS_KEY := Cat(Lit("AKIA"), Chars(UpperAlnum, 16, Some(16)))

  /** In the order in which they are applied. */
  const SECRET_PATTERNS: seq<Re> :=
    [OPENAI_KEY, ANTHROPIC_KEY, GITHUB_TOKEN, GOOGLE_KEY, BEARER_TOKEN, LABELED_SECRET, AWS_KEY]

  const CREDENTIAL_WORDS := AnyWord(["password", "passwd", "apikey", "secret", "token"])
  const REQUEST_WORDS := AnyWord(["bearer", "authorization", "cookie", "cookies"])
  const CONTEXT_WORDS := AnyWord(["storage", "header", "headers", "env", "session"])
  const SIGNING_WORDS := AnyWord(["credential", "credentials", "signature", "auth", "oauth"])
  const KEY_NAMES := Alt(KeyName("api"), Alt(KeyName("private"), KeyName("access")))
  const KEY_WORDS := Alt(Alt(CREDENTIAL_WORDS, REQUEST_WORDS), Alt(CONTEXT_WORDS, SIGNING_WORDS))
  const SECRET_KEY := Alt(KEY_WORDS, KEY_NAMES)

  // ---------- what redaction needs of them ----------

  /** A match can neither touch the marker's brackets nor fit inside it, and has at least n characters. */
  ghost predicate ShunsMarker(re: Re, n: nat) {
    BracketFree(re) && ForeignToMarker(re) && MinLength(re) >= n
  }

  /** The word is in lower case and has at k a letter foreign to the marker. */
  predicate ForeignWord(w: string, k: nat) {
    && k < |w| && !IsMarkerLetter(w[k])
    && forall i :: 0 <= i < |w| ==> 'a' <= w[i] <= 'z'
  }

  lemma WordShuns(w: string, k: nat)
    requires ForeignWord(w, k)
    ensures ShunsMarker(Fold(w), |w|)
  {
  }

  lemma LitShuns(w: string, k: nat)
    requires k < |w| && !IsMarkerLetter(w[k]) && BracketFree(Lit(w))
    ensures ShunsMarker(Lit(w), |w|)
  {
  }

  lemma CatShuns(a: Re, b: Re, n: nat)
    requires ShunsMarker(a, n) && BracketFree(b)
    ensures ShunsMarker(Cat(a, b), n + MinLength(b))
  {
  }

  lemma AltShuns(a: Re, b: Re, n: nat)
    requires ShunsMarker(a, n) && ShunsMarker(b, n)
    ensures ShunsMarker(Alt(a, b), n)
  {
  }

  lemma {:induction false} AnyWordShuns(words: seq<string>, foreign: seq<nat>, n: nat)
    requires words != [] && |foreign| == |words|
    requires forall i :: 0 <= i < |words| ==> ForeignWord(words[i], foreign[i]) && |words[i]| >= n
    ensures ShunsMarker(AnyWord(words), n)
  {
    WordShuns(words[0], foreign[0]);
    if |words| > 1 {
      AnyWordShuns(words[1..], foreign[1..], n);
      AltShuns(Fold(words[0]), AnyWord(words[1..]), n);
    }
  }

  lemma KeyNameShuns(first: string, k: nat)
    requires ForeignWord(first, k)
    ensures ShunsMarker(KeyName(first), |first| + 3)
  {
    var rest := Cat(Chars(Joiner, 0, Some(1)), Fold("key"));
    WordShuns(first, k);
    assert BracketFree(rest) && MinLength(rest) == 3;
    CatShuns(Fold(first), rest, |first|);
  }

  lemma LabelShuns()
    ensures ShunsMarker(SECRET_LABEL, 5)
  {
    LabelWordsShun();
    ApiKeyShuns();
    AccessKeyShuns();
    AltShuns(KeyName("api"), KeyName("access"), 5);
    AltShuns(AnyWord(["password", "passwd", "secret", "token"]), Alt(KeyName("api"), KeyName("access")), 5);
  }

  lemma LabelWordsShun()
    ensures ShunsMarker(AnyWord(["password", "passwd", "secret", "token"]), 5)
  {
    AnyWordShuns(["password", "passwd", "secret", "token"], [0, 0, 0, 1], 5);
  }

  lemma CredentialWordsShun()
    ensures ShunsMarker(CREDENTIAL_WORDS, 3)
  {
    AnyWordShuns(["password", "passwd", "apikey", "secret", "token"], [0, 0, 1, 0, 1], 3);
  }

  lemma RequestWordsShun()
    ensures ShunsMarker(REQUEST_WORDS, 3)
  {
    AnyWordShuns(["bearer", "authorization", "cookie", "cookies"], [0, 1, 1, 1], 3);
  }

  lemma ContextWordsShun()
    ensures ShunsMarker(CONTEXT_WORDS, 3)
  {
    AnyWordShuns(["storage", "header", "headers", "env", "session"], [0, 0, 0, 1, 0], 3);
  }

  lemma SigningWordsShun()
    ensures ShunsMarker(SIGNING_WORDS, 3)
  {
    AnyWordShuns(["credential", "credentials", "signature", "auth", "oauth"], [5, 5, 0, 1, 0], 3);
  }

  lemma KeyNamesShun()
    ensures ShunsMarker(KEY_NAMES, 3)
  {
    ApiKeyShuns();
    PrivateKeyShuns();
    AccessKeyShuns();
    AltShuns(KeyName("private"), KeyName("access"), 3);
    AltShuns(KeyName("api"), Alt(KeyName("private"), KeyName("access")), 3);
  }

  lemma ApiKeyShuns()
    ensures ShunsMarker(KeyName("api"), 5)
  {
    KeyNameShuns("api", 1);
  }

  lemma PrivateKeyShuns()
    ensures ShunsMarker(KeyName("private"), 5)
  {
    KeyNameShuns("private", 0);
  }

  lemma AccessKeyShuns()
    ensures ShunsMarker(KeyName("access"), 5)
  {
    KeyNameShuns("access", 4);
  }

  lemma SecretKeyShuns()
    ensures ShunsMarker(SECRET_KEY, 3)
  {
    KeyWordsShun();
    KeyNamesShun();
    AltShuns(KEY_WORDS, KEY_NAMES, 3);
  }

  lemma KeyWordsShun()
    ensures ShunsMarker(KEY_WORDS, 3)
  {
    CredentialWordsShun();
    RequestWordsShun();
    AltShuns(CREDENTIAL_WORDS, REQUEST_WORDS, 3);
    ContextWordsShun();
    SigningWordsShun();
    AltShuns(CONTEXT_WORDS, SIGNING_WORDS, 3);
    AltShuns(Alt(CREDENTIAL_WORDS, REQUEST_WORDS), Alt(CONTEXT_WORDS, SIGNING_WORDS), 3);
  }

  lemma OpenAIShuns()
    ensures ShunsMarker(OPENAI_KEY, 22)
  {
    LitShuns("sk-proj-", 0);
    CatShuns(Lit("sk-proj-"), Chars(AlnumDash, 20, None), 8);
    LitShuns("sk-", 0);
    CatShuns(Lit("sk-"), Chars(Alnum, 40, None), 3);
  }

  lemma KeyPatternsShun()
    ensures ShunsMarker(ANTHROPIC_KEY, 22) && ShunsMarker(GITHUB_TOKEN, 22)
  {
    LitShuns("sk-ant-", 0);
    CatShuns(Lit("sk-ant-"), Chars(AlnumDash, 40, None), 7);
    LitShuns("gh", 0);
    var rest := Seq3(Chars(GitHubKind, 1, Some(1)), Lit("_"), Chars(Alnum, 36, None));
    assert BracketFree(rest) && MinLength(rest) == 38;
    CatShuns(Lit("gh"), rest, 2);
  }

  lemma TokenPatternsShun()
    ensures ShunsMarker(GOOGLE_KEY, 22) && ShunsMarker(BEARER_TOKEN, 22) && ShunsMarker(AWS_KEY, 20)
  {
    LitShuns("AIza", 1);
    CatShuns(Lit("AIza"), Chars(AlnumDash, 35, Some(35)), 4);
    LitShuns("Bearer", 0);
    var rest := Cat(Chars(Space, 1, None), Chars(TokenChar, 20, None));
    assert BracketFree(rest) && MinLength(rest) == 21;
    CatShuns(Lit("Bearer"), rest, 6);
    LitShuns("AKIA", 1);
    CatShuns(Lit("AKIA"), Chars(UpperAlnum, 16, Some(16)), 4);
  }

  lemma LabeledShuns()
    ensures ShunsMarker(LABELED_SECRET, 22)
  {
    LabelShuns();
    var spaces := Seq3(Chars(Space, 0, None), Chars(Assign, 1, Some(1)), Chars(Space, 0, None));
    assert BracketFree(spaces) && MinLength(spaces) == 1;
    assert BracketFree(SECRET_VALUE) && MinLength(SECRET_VALUE) == 16;
    CatShuns(SECRET_LABEL, Cat(spaces, SECRET_VALUE), 5);
  }

  lemma SecretPatternShuns(k: nat)
    requires k < |SECRET_PATTERNS|
    ensures ShunsMarker(SECRET_PATTERNS[k], if k == 6 then 20 else 22)
  {
    if k < 3 {
      FirstPatternsShun(k);
    } else {
      LastPatternsShun(k);
    }
  }

  lemma FirstPatternsShun(k: nat)
    requires k < 3
    ensures ShunsMarker(SECRET_PATTERNS[k], 22)
  {
    match k
    case 0 => OpenAIShuns();
    case _ => KeyPatternsShun();
  }

  lemma LastPatternsShun(k: nat)
    requires 3 <= k < |SECRET_PATTERNS|
    ensures ShunsMarker(SECRET_PATTERNS[k], if k == 6 then 20 else 22)
  {
    match k
    case 5 => LabeledShuns();
    case _ => TokenPatternsShun();
  }
}
