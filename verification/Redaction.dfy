/** Replacing secrets by a marker: nothing that matches a secret pattern survives, however the regex
    engine chooses among matches, and cutting the text afterwards exposes nothing. */
module Redaction {
  import opened Wrappers
  import opened Patterns

  /** A regex engine: the length of the match it prefers at the start of a text, if there is one. */
  type Matcher = (Re, string) -> Option<nat>

  ghost predicate MatchesAtStart(re: Re, s: string) {
    exists n :: 0 <= n <= |s| && Matches(re, s[..n])
  }

  ghost predicate Honest(find: Matcher) {
    forall re, s ::
      match find(re, s)
      case Some(n) => n <= |s| && Matches(re, s[..n])
      case None => !MatchesAtStart(re, s)
  }

  ghost predicate Clean(re: Re, s: string) {
    !Occurs(re, s)
  }

  /** Replaces the leftmost match, then goes on behind it. The flag says whether anything matched. */
  function Replace(find: Matcher, re: Re, s: string): (r: (string, bool))
    requires Honest(find)
    decreases |s|, 1
  {
    if s == "" then ("", false)
    else
      match find(re, s)
      case Some(n) =>
        if n == 0 then Skip(find, re, s) else (MARKER + Replace(find, re, s[n..]).0, true)
      case None => Skip(find, re, s)
  }

  function Skip(find: Matcher, re: Re, s: string): (r: (string, bool))
    requires Honest(find) && s != ""
    decreases |s|, 0
  {
    var rest := Replace(find, re, s[1..]);
    ([s[0]] + rest.0, rest.1)
  }

  /** The patterns are applied one after the other, each to the result of the one before. */
  function ReplaceAll(find: Matcher, patterns: seq<Re>, s: string): (r: (string, bool))
    requires Honest(find)
  {
    if patterns == [] then (s, false)
    else
      var last := |patterns| - 1;
      var before := ReplaceAll(find, patterns[..last], s);
      var after := Replace(find, patterns[last], before.0);
      (after.0, before.1 || after.1)
  }

  // ---------- substrings ----------

  lemma OccursWithin(re: Re, x: string, y: string, z: string)
    requires Occurs(re, y)
    ensures Occurs(re, x + y + z)
  {
    var i, j :| 0 <= i <= j <= |y| && Matches(re, y[i..j]);
    assert (x + y + z)[|x| + i..|x| + j] == y[i..j];
  }

  lemma CleanPart(re: Re, s: string, i: nat, j: nat)
    requires i <= j <= |s| && Clean(re, s)
    ensures Clean(re, s[i..j])
  {
    if Occurs(re, s[i..j]) {
      assert s == s[..i] + s[i..j] + s[j..];
      OccursWithin(re, s[..i], s[i..j], s[j..]);
    }
  }

  /** A stretch without brackets lies before the marker, behind it, or inside its word. */
  lemma BesideOrInside(x: string, y: string, i: nat, j: nat)
    requires i <= j <= |x + MARKER + y|
    requires '[' !in (x + MARKER + y)[i..j] && ']' !in (x + MARKER + y)[i..j]
    ensures j <= |x| || i >= |x| + 10 || (|x| + 1 <= i && j <= |x| + 9)
  {
    var s := x + MARKER + y;
    assert s[|x|] == '[' && s[|x| + 9] == ']';
  }

  lemma InsideNotMatched(re: Re, x: string, y: string, i: nat, j: nat)
    requires ShunsMarker(re, 1) && |x| + 1 <= i <= j <= |x| + 9
    ensures j <= |x + MARKER + y| && !Matches(re, (x + MARKER + y)[i..j])
  {
    var m := (x + MARKER + y)[i..j];
    forall k | 0 <= k < |m| ensures IsMarkerLetter(m[k]) {
      assert m[k] == MARKER[i + k - |x|];
    }
    if Matches(re, m) { MatchIsForeign(re, m); }
  }

  /** No match overlaps the marker. */
  lemma OccursBesideMarker(re: Re, x: string, y: string)
    requires ShunsMarker(re, 1) && Occurs(re, x + MARKER + y)
    ensures Occurs(re, x) || Occurs(re, y)
  {
    var s := x + MARKER + y;
    var i, j :| 0 <= i <= j <= |s| && Matches(re, s[i..j]);
    MatchHasNoBracket(re, s[i..j]);
    BesideOrInside(x, y, i, j);
    if |x| + 1 <= i && j <= |x| + 9 { InsideNotMatched(re, x, y, i, j); }
    if j <= |x| {
      assert x[i..j] == s[i..j];
    } else {
      BehindMarker(x, y, i, j);
    }
  }

  lemma BehindMarker(x: string, y: string, i: nat, j: nat)
    requires |x| + 10 <= i <= j <= |x + MARKER + y|
    ensures (x + MARKER + y)[i..j] == y[i - |x| - 10..j - |x| - 10]
  {
  }

  // ---------- one pattern ----------

  /** Replacing by one pattern creates no match of another, nor of itself. */
  lemma {:induction false} ReplaceKeepsClean(find: Matcher, p: Re, q: Re, x: string, s: string)
    requires Honest(find) && ShunsMarker(q, 1) && Clean(q, x + s)
    ensures Clean(q, x + Replace(find, p, s).0)
    decreases |s|
  {
    if s == "" {
    } else if find(p, s).Some? && find(p, s).value > 0 {
      var n := find(p, s).value;
      var rest := Replace(find, p, s[n..]).0;
      CleanPart(q, x + s, 0, |x|);
      assert (x + s)[0..|x|] == x;
      CleanPart(q, x + s, |x| + n, |x + s|);
      assert (x + s)[|x| + n..|x + s|] == "" + s[n..];
      ReplaceKeepsClean(find, p, q, "", s[n..]);
      assert "" + rest == rest;
      assert x + (MARKER + rest) == x + MARKER + rest;
      if Occurs(q, x + MARKER + rest) { OccursBesideMarker(q, x, rest); }
    } else {
      var x' := x + [s[0]];
      assert x + s == x' + s[1..];
      ReplaceKeepsClean(find, p, q, x', s[1..]);
      assert x + ([s[0]] + Replace(find, p, s[1..]).0) == x' + Replace(find, p, s[1..]).0;
    }
  }

  /** No match of p starts in the first |x| characters of x + s. */
  ghost predicate NoneStartsIn(p: Re, x: string, s: string) {
    forall i, j :: 0 <= i < |x| && i <= j <= |x + s| ==> !Matches(p, (x + s)[i..j])
  }

  /** One leftmost pass leaves no match of its own pattern. */
  lemma {:induction false} ReplaceCleans(find: Matcher, p: Re, x: string, s: string)
    requires Honest(find) && ShunsMarker(p, 1) && NoneStartsIn(p, x, s)
    ensures Clean(p, x + Replace(find, p, s).0)
    decreases |s|
  {
    if s == "" {
      assert x + "" == x;
      PrefixClean(p, x, s);
    } else if find(p, s).Some? && find(p, s).value > 0 {
      var n := find(p, s).value;
      var rest := Replace(find, p, s[n..]).0;
      ReplaceCleans(find, p, "", s[n..]);
      assert "" + rest == rest;
      assert x + (MARKER + rest) == x + MARKER + rest;
      if Occurs(p, x + MARKER + rest) {
        OccursBesideMarker(p, x, rest);
        PrefixClean(p, x, s);
      }
    } else {
      var x' := x + [s[0]];
      NoneStartsNext(find, p, x, s);
      ReplaceCleans(find, p, x', s[1..]);
      assert x + ([s[0]] + Replace(find, p, s[1..]).0) == x' + Replace(find, p, s[1..]).0;
    }
  }

  lemma PrefixClean(p: Re, x: string, s: string)
    requires MinLength(p) >= 1 && NoneStartsIn(p, x, s)
    ensures Clean(p, x)
  {
    forall i, j | 0 <= i <= j <= |x| ensures !Matches(p, x[i..j]) {
      assert (x + s)[i..j] == x[i..j];
      if Matches(p, x[i..j]) { MatchIsLong(p, x[i..j]); }
    }
  }

  lemma NoneStartsNext(find: Matcher, p: Re, x: string, s: string)
    requires Honest(find) && MinLength(p) >= 1 && s != "" && NoneStartsIn(p, x, s)
    requires find(p, s).None? || find(p, s).value == 0
    ensures NoneStartsIn(p, x + [s[0]], s[1..])
  {
    var x', t := x + [s[0]], x + s;
    assert x' + s[1..] == t;
    if find(p, s).Some? { MatchIsLong(p, s[..0]); }
    forall i, j | 0 <= i < |x'| && i <= j <= |t| ensures !Matches(p, t[i..j]) {
      if i == |x| { assert t[i..j] == s[..j - i]; }
    }
  }

  lemma OccursLater(p: Re, s: string)
    requires s != "" && !MatchesAtStart(p, s) && Occurs(p, s)
    ensures Occurs(p, s[1..])
  {
    assert forall n :: 0 <= n <= |s| ==> s[0..n] == s[..n];
    var i, j :| 0 <= i <= j <= |s| && Matches(p, s[i..j]);
    assert s[1..][i - 1..j - 1] == s[i..j];
  }

  /** A clean text is returned as it is, and the flag stays down; a text that is not clean raises it. */
  lemma {:induction false} ReplaceOfClean(find: Matcher, p: Re, s: string)
    requires Honest(find) && MinLength(p) >= 1
    ensures Clean(p, s) ==> Replace(find, p, s) == (s, false)
    ensures !Clean(p, s) ==> Replace(find, p, s).1
    decreases |s|
  {
    if s == "" {
      if Occurs(p, s) {
        var i, j :| 0 <= i <= j <= |s| && Matches(p, s[i..j]);
        MatchIsLong(p, s[i..j]);
      }
    } else if find(p, s).Some? && find(p, s).value > 0 {
      assert s[0..find(p, s).value] == s[..find(p, s).value];
    } else {
      if find(p, s).Some? { MatchIsLong(p, s[..0]); }
      ReplaceOfClean(find, p, s[1..]);
      if Clean(p, s) {
        CleanPart(p, s, 1, |s|);
        assert s[1..|s|] == s[1..] && [s[0]] + s[1..] == s;
      } else {
        OccursLater(p, s);
      }
    }
  }

  /** What a redaction by p may look like, whichever matches were preferred: text that starts no
      match is kept character by character, and a match is replaced where the text first allows one. */
  ghost predicate IsRedaction(p: Re, s: string, out: string)
    decreases |s|
  {
    if s == "" then out == ""
    else if MatchesAtStart(p, s) then
      && MARKER <= out
      && exists n :: 1 <= n <= |s| && Matches(p, s[..n]) && IsRedaction(p, s[n..], out[|MARKER|..])
    else out != "" && out[0] == s[0] && IsRedaction(p, s[1..], out[1..])
  }

  lemma {:induction false} ReplaceIsRedaction(find: Matcher, p: Re, s: string)
    requires Honest(find) && MinLength(p) >= 1
    ensures IsRedaction(p, s, Replace(find, p, s).0)
    decreases |s|
  {
    if s != "" {
      if find(p, s).Some? {
        var n := find(p, s).value;
        MatchIsLong(p, s[..n]);
        ReplaceIsRedaction(find, p, s[n..]);
        assert Replace(find, p, s).0[|MARKER|..] == Replace(find, p, s[n..]).0;
      } else {
        ReplaceIsRedaction(find, p, s[1..]);
        assert Replace(find, p, s).0[1..] == Replace(find, p, s[1..]).0;
      }
    }
  }

  // ---------- all patterns ----------

  ghost predicate AllShun(patterns: seq<Re>) {
    forall k :: 0 <= k < |patterns| ==> ShunsMarker(patterns[k], 1)
  }

  ghost predicate AllClean(patterns: seq<Re>, s: string) {
    forall k :: 0 <= k < |patterns| ==> Clean(patterns[k], s)
  }

  /** Later patterns never undo the work of earlier ones. */
  lemma {:induction false} ReplaceAllCleans(find: Matcher, patterns: seq<Re>, s: string)
    requires Honest(find) && AllShun(patterns)
    ensures AllClean(patterns, ReplaceAll(find, patterns, s).0)
  {
    if patterns != [] {
      var last := |patterns| - 1;
      var before := ReplaceAll(find, patterns[..last], s).0;
      var after := Replace(find, patterns[last], before).0;
      ReplaceAllCleans(find, patterns[..last], s);
      forall k | 0 <= k < |patterns| ensures Clean(patterns[k], after) {
        assert "" + after == after && "" + before == before;
        if k < last {
          assert patterns[..last][k] == patterns[k];
          ReplaceKeepsClean(find, patterns[last], patterns[k], "", before);
        } else {
          ReplaceCleans(find, patterns[last], "", before);
        }
      }
    }
  }

  lemma {:induction false} ReplaceAllKeepsClean(find: Matcher, patterns: seq<Re>, q: Re, s: string)
    requires Honest(find) && ShunsMarker(q, 1) && Clean(q, s)
    ensures Clean(q, ReplaceAll(find, patterns, s).0)
  {
    if patterns != [] {
      var last := |patterns| - 1;
      var before := ReplaceAll(find, patterns[..last], s).0;
      ReplaceAllKeepsClean(find, patterns[..last], q, s);
      assert "" + before == before;
      ReplaceKeepsClean(find, patterns[last], q, "", before);
      assert "" + Replace(find, patterns[last], before).0 == Replace(find, patterns[last], before).0;
    }
  }

  /** The flag goes up exactly when some pattern occurs, and without it the text is unchanged. */
  lemma {:induction false} ReplaceAllOfClean(find: Matcher, patterns: seq<Re>, s: string)
    requires Honest(find) && AllShun(patterns)
    ensures AllClean(patterns, s) <==> !ReplaceAll(find, patterns, s).1
    ensures AllClean(patterns, s) ==> ReplaceAll(find, patterns, s).0 == s
  {
    if patterns != [] {
      var last := |patterns| - 1;
      ReplaceAllOfClean(find, patterns[..last], s);
      var before := ReplaceAll(find, patterns[..last], s);
      assert forall k :: 0 <= k < last ==> patterns[..last][k] == patterns[k];
      ReplaceOfClean(find, patterns[last], before.0);
    }
  }

  // ---------- redact_text ----------

  datatype Redacted = Redacted(text: string, redacted: bool, truncated: bool)

  function Cut(s: string, maxChars: Option<nat>): string {
    if maxChars.Some? && |s| > maxChars.value then s[..maxChars.value] else s
  }

  /** Secrets go first, the length limit second. */
  function RedactText(find: Matcher, content: string, maxChars: Option<nat>): (r: Redacted)
    requires Honest(find)
    ensures maxChars.Some? ==> |r.text| <= maxChars.value
  {
    var (text, redacted) := ReplaceAll(find, SECRET_PATTERNS, content);
    Redacted(Cut(text, maxChars), redacted, maxChars.Some? && |text| > maxChars.value)
  }

  lemma SecretPatternsAllShun()
    ensures AllShun(SECRET_PATTERNS)
  {
    forall k | 0 <= k < |SECRET_PATTERNS| ensures ShunsMarker(SECRET_PATTERNS[k], 1) {
      SecretPatternShuns(k);
    }
  }

  /** No secret pattern matches anywhere in what redact_text returns. */
  lemma RedactTextIsClean(find: Matcher, content: string, maxChars: Option<nat>)
    requires Honest(find)
    ensures AllClean(SECRET_PATTERNS, RedactText(find, content, maxChars).text)
  {
    SecretPatternsAllShun();
    ReplaceAllCleans(find, SECRET_PATTERNS, content);
    CutIsClean(SECRET_PATTERNS, ReplaceAll(find, SECRET_PATTERNS, content).0, maxChars);
  }

  lemma CutIsClean(patterns: seq<Re>, s: string, maxChars: Option<nat>)
    requires AllClean(patterns, s)
    ensures AllClean(patterns, Cut(s, maxChars))
  {
    if maxChars.Some? && |s| > maxChars.value {
      forall k | 0 <= k < |patterns| ensures Clean(patterns[k], s[..maxChars.value]) {
        CleanPart(patterns[k], s, 0, maxChars.value);
        assert s[0..maxChars.value] == s[..maxChars.value];
      }
    }
  }

  /** Redacting again, under any limit at least as wide, changes nothing and reports nothing. */
  lemma RedactTextIdempotent(find: Matcher, content: string, maxChars: Option<nat>, again: Option<nat>)
    requires Honest(find)
    requires again.Some? ==> maxChars.Some? && maxChars.value <= again.value
    ensures var once := RedactText(find, content, maxChars).text;
            RedactText(find, once, again) == Redacted(once, false, false)
  {
    var once := RedactText(find, content, maxChars).text;
    RedactTextIsClean(find, content, maxChars);
    SecretPatternsAllShun();
    ReplaceAllOfClean(find, SECRET_PATTERNS, once);
  }

  /** The flags are exact: redacted iff a secret occurs; with both flags down the text is untouched. */
  lemma RedactTextFlags(find: Matcher, content: string, maxChars: Option<nat>)
    requires Honest(find)
    ensures var r := RedactText(find, content, maxChars);
            && (r.redacted <==> !AllClean(SECRET_PATTERNS, content))
            && (!r.redacted ==> r.text == Cut(content, maxChars))
            && (!r.redacted && !r.truncated ==> r.text == content)
  {
    SecretPatternsAllShun();
    ReplaceAllOfClean(find, SECRET_PATTERNS, content);
  }

  /** The loop of redact_secrets, over any list of patterns. */
  method RedactSecrets(find: Matcher, patterns: seq<Re>, input: string) returns (content: string, redacted: bool)
    requires Honest(find)
    ensures (content, redacted) == ReplaceAll(find, patterns, input)
    ensures AllShun(patterns) ==> AllClean(patterns, content) && (redacted <==> !AllClean(patterns, input))
  {
    content, redacted := input, false;
    for k := 0 to |patterns|
      invariant (content, redacted) == ReplaceAll(find, patterns[..k], input)
    {
      assert patterns[..k + 1][..k] == patterns[..k];
      var r := Replace(find, patterns[k], content);
      if r.1 {
        redacted := true;
      }
      content := r.0;
    }
    assert patterns[..|patterns|] == patterns;
    if AllShun(patterns) {
      ReplaceAllCleans(find, patterns, input);
      ReplaceAllOfClean(find, patterns, input);
    }
  }

  /** A limit cuts the redacted text and nothing else, and the truncated flag says exactly whether it did. */
  lemma LimitCuts(find: Matcher, content: string, max: nat)
    requires Honest(find)
    ensures var whole, r := RedactText(find, content, None), RedactText(find, content, Some(max));
            && !whole.truncated && r.redacted == whole.redacted && (r.truncated <==> |whole.text| > max)
            && r.text <= whole.text && |r.text| == (if r.truncated then max else |whole.text|)
  {
  }
}
