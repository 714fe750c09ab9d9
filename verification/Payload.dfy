/** Scrubbing nested payloads and fitting them into a budget. */
module Payload {
  import opened Wrappers
  import opened Patterns
  import opened Redaction

  /** A dictionary key, or something else that str() turns into one. */
  datatype Key = Text(s: string) | Foreign(repr: string)

  function KeyText(k: Key): string {
    if k.Text? then k.s else k.repr
  }

  /** A payload; JOpaque is any value that is not JSON, seen through str(). */
  datatype Json =
    | JNull
    | JBool(b: bool)
    | JNumber(n: real)
    | JString(s: string)
    | JList(items: seq<Json>)
    | JDict(entries: seq<Entry>)
    | JOpaque(repr: string)

  datatype Entry = Entry(key: Key, value: Json)

  datatype Limits = Limits(maxDepth: nat, maxList: nat, maxStr: nat)

  datatype Scrubber = Scrubber(
    find: Matcher,
    limits: Limits,
    numericAllow: set<string>,
    metadataAllow: set<string>)

  datatype Scrubbed = Scrubbed(value: Json, redacted: bool, truncated: bool)

  const ELLIPSIS: string := "\U{2026}"
  const PROHIBITED: string := "_model_content"
  const KEY_LIMIT: nat := 500

  const NUMERIC_ALLOW_KEYS: set<string> :=
    {"tokens_in", "tokens_out", "thinking_tokens", "cached_tokens", "context_tokens", "max_context_tokens",
     "total_tokens_in", "total_tokens_out"}

  /** What the timeline adds for its model-call events. */
  const MODEL_CALL_NUMERIC_KEYS: set<string> := NUMERIC_ALLOW_KEYS +
    {"input_tokens", "output_tokens", "cache_read_tokens", "cache_write_tokens", "reasoning_tokens",
     "cache_write_1h_tokens", "audio_input_tokens", "audio_output_tokens"}
  const MODEL_CALL_METADATA_KEYS: set<string> := {"rate_authority", "pricing_authority"}

  predicate Search(find: Matcher, re: Re, s: string) {
    exists i :: 0 <= i <= |s| && find(re, s[i..]).Some?
  }

  predicate IsSecretKey(find: Matcher, text: string) {
    Search(find, SECRET_KEY, text) || text == PROHIBITED
  }

  predicate IsNumeric(v: Json) {
    v.JNull? || v.JBool? || v.JNumber?
  }

  predicate KeepsSecret(sc: Scrubber, text: string, v: Json) {
    (text in sc.numericAllow && IsNumeric(v)) || (text in sc.metadataAllow && v.JDict?)
  }

  /** The position of a key in an output dictionary, or its length. */
  function Find(out: seq<Entry>, key: string): (i: nat)
    ensures i <= |out| && (i < |out| ==> KeyText(out[i].key) == key)
    ensures forall j :: 0 <= j < i ==> KeyText(out[j].key) != key
  {
    if out == [] then 0 else if KeyText(out[0].key) == key then 0 else 1 + Find(out[1..], key)
  }

  /** Assignment to a key: an existing one keeps its place. */
  function Put(out: seq<Entry>, key: string, v: Json): seq<Entry> {
    var i := Find(out, key);
    if i < |out| then out[i := Entry(Text(key), v)] else out + [Entry(Text(key), v)]
  }

  function Scrub(sc: Scrubber, v: Json, depth: nat): Scrubbed
    requires Honest(sc.find)
    decreases v, 1
  {
    match v
    case JDict(entries) =>
      if depth >= sc.limits.maxDepth then Scrubbed(JString(ELLIPSIS), false, true)
      else ScrubEntries(sc, entries, 0, [], false, false, depth)
    case JList(items) =>
      if depth >= sc.limits.maxDepth then Scrubbed(JList([JString(ELLIPSIS)]), false, true)
      else ScrubItems(sc, items, 0, [], false, false, depth)
    case JString(s) =>
      var r := RedactText(sc.find, s, Some(sc.limits.maxStr));
      Scrubbed(JString(r.text), r.redacted, r.truncated)
    case JOpaque(repr) =>
      var r := RedactText(sc.find, repr, Some(sc.limits.maxStr));
      Scrubbed(JString(r.text), true, r.truncated)
    case _ => Scrubbed(v, false, false)
  }

  /** What the dictionary loop does with its i-th entry. */
  datatype EntryFate =
    | Drop
    | Stop(keyRedacted: bool)
    | Keep(key: Redacted, value: Scrubbed)

  function ScrubEntry(sc: Scrubber, e: Entry, i: nat, depth: nat): EntryFate
    requires Honest(sc.find)
    decreases e, 0
  {
    if IsSecretKey(sc.find, KeyText(e.key)) && !KeepsSecret(sc, KeyText(e.key), e.value) then Drop
    else
      var key := RedactText(sc.find, KeyText(e.key), Some(KEY_LIMIT));
      if i >= sc.limits.maxList then Stop(key.redacted) else Keep(key, Scrub(sc, e.value, depth + 1))
  }

  /** The dictionary loop from entry i on, with what it has gathered so far. */
  function ScrubEntries(sc: Scrubber, entries: seq<Entry>, i: nat, out: seq<Entry>,
                        redacted: bool, truncated: bool, depth: nat): Scrubbed
    requires Honest(sc.find)
    decreases entries, 0
  {
    if entries == [] then Scrubbed(JDict(out), redacted, truncated)
    else
      match ScrubEntry(sc, entries[0], i, depth)
      case Drop => ScrubEntries(sc, entries[1..], i + 1, out, true, truncated, depth)
      case Stop(keyRedacted) => Scrubbed(JDict(out), redacted || keyRedacted, true)
      case Keep(key, r) =>
        ScrubEntries(sc, entries[1..], i + 1, Put(out, key.text, r.value), redacted || key.redacted || r.redacted,
                     truncated || key.truncated || r.truncated, depth)
  }

  function ScrubItems(sc: Scrubber, items: seq<Json>, i: nat, out: seq<Json>,
                      redacted: bool, truncated: bool, depth: nat): Scrubbed
    requires Honest(sc.find)
    decreases items, 0
  {
    if items == [] then Scrubbed(JList(out), redacted, truncated)
    else if i >= sc.limits.maxList then Scrubbed(JList(out), redacted, true)
    else
      var r := Scrub(sc, items[0], depth + 1);
      ScrubItems(sc, items[1..], i + 1, out + [r.value], redacted || r.redacted, truncated || r.truncated, depth)
  }

  // ---------- the scrubber as it runs ----------

  method ScrubValue(sc: Scrubber, v: Json, depth: nat) returns (r: Scrubbed)
    requires Honest(sc.find)
    ensures r == Scrub(sc, v, depth)
    decreases v, 1
  {
    match v {
      case JDict(entries) =>
        if depth >= sc.limits.maxDepth {
          return Scrubbed(JString(ELLIPSIS), false, true);
        }
        r := ScrubDict(sc, entries, depth);
      case JList(items) =>
        if depth >= sc.limits.maxDepth {
          return Scrubbed(JList([JString(ELLIPSIS)]), false, true);
        }
        r := ScrubList(sc, items, depth);
      case JString(s) =>
        var text := RedactText(sc.find, s, Some(sc.limits.maxStr));
        r := Scrubbed(JString(text.text), text.redacted, text.truncated);
      case JOpaque(repr) =>
        var text := RedactText(sc.find, repr, Some(sc.limits.maxStr));
        r := Scrubbed(JString(text.text), true, text.truncated);
      case _ => r := Scrubbed(v, false, false);
    }
  }

  method ScrubDict(sc: Scrubber, entries: seq<Entry>, depth: nat) returns (r: Scrubbed)
    requires Honest(sc.find)
    ensures r == ScrubEntries(sc, entries, 0, [], false, false, depth)
    decreases entries, 0
  {
    var out, redacted, truncated := [], false, false;
    for i := 0 to |entries|
      invariant ScrubEntries(sc, entries[i..], i, out, redacted, truncated, depth) ==
                ScrubEntries(sc, entries, 0, [], false, false, depth)
    {
      assert entries[i..][1..] == entries[i + 1..];
      var fate := ScrubOne(sc, entries[i], i, depth);
      match fate {
        case Drop =>
          redacted := true;
        case Stop(keyRedacted) =>
          return Scrubbed(JDict(out), redacted || keyRedacted, true);
        case Keep(key, v) =>
          redacted := redacted || key.redacted || v.redacted;
          truncated := truncated || key.truncated || v.truncated;
          out := Put(out, key.text, v.value);
      }
    }
    return Scrubbed(JDict(out), redacted, truncated);
  }

  method ScrubOne(sc: Scrubber, e: Entry, i: nat, depth: nat) returns (fate: EntryFate)
    requires Honest(sc.find)
    ensures fate == ScrubEntry(sc, e, i, depth)
    decreases e, 0
  {
    if IsSecretKey(sc.find, KeyText(e.key)) && !KeepsSecret(sc, KeyText(e.key), e.value) {
      return Drop;
    }
    var key := RedactText(sc.find, KeyText(e.key), Some(KEY_LIMIT));
    if i >= sc.limits.maxList {
      return Stop(key.redacted);
    }
    var v := ScrubValue(sc, e.value, depth + 1);
    return Keep(key, v);
  }

  method ScrubList(sc: Scrubber, items: seq<Json>, depth: nat) returns (r: Scrubbed)
    requires Honest(sc.find)
    ensures r == ScrubItems(sc, items, 0, [], false, false, depth)
    decreases items, 0
  {
    var out, redacted, truncated := [], false, false;
    for i := 0 to |items|
      invariant ScrubItems(sc, items[i..], i, out, redacted, truncated, depth) ==
                ScrubItems(sc, items, 0, [], false, false, depth)
    {
      assert items[i..][1..] == items[i + 1..];
      if i >= sc.limits.maxList {
        return Scrubbed(JList(out), redacted, true);
      }
      var v' := ScrubValue(sc, items[i], depth + 1);
      redacted := redacted || v'.redacted;
      truncated := truncated || v'.truncated;
      out := out + [v'.value];
    }
    return Scrubbed(JList(out), redacted, truncated);
  }

  // ---------- what comes out ----------

  /** The allowed keys callers pass: the default ones, or the timeline's for a model call. */
  ghost predicate CallersAllow(sc: Scrubber) {
    || (sc.numericAllow == NUMERIC_ALLOW_KEYS && sc.metadataAllow == {})
    || (sc.numericAllow == MODEL_CALL_NUMERIC_KEYS && sc.metadataAllow == MODEL_CALL_METADATA_KEYS)
  }

  /** Within every limit, free of secrets, and with no secret-named key but the allowed ones: under a numeric one
      stands a number or nothing, under a metadata one a dictionary or the mark of one cut off. */
  ghost predicate Presentable(sc: Scrubber, v: Json, depth: nat) {
    match v
    case JString(s) => (|s| <= sc.limits.maxStr || s == ELLIPSIS) && AllClean(SECRET_PATTERNS, s)
    case JList(items) =>
      if depth >= sc.limits.maxDepth then items == [JString(ELLIPSIS)]
      else |items| <= sc.limits.maxList && forall e :: e in items ==> Presentable(sc, e, depth + 1)
    case JDict(entries) =>
      && depth < sc.limits.maxDepth && |entries| <= sc.limits.maxList
      && (forall e :: e in entries ==> PresentableKey(sc, e.key, e.value))
      && (forall e :: e in entries ==> Presentable(sc, e.value, depth + 1))
    case JOpaque(_) => false
    case _ => true
  }

  ghost predicate PresentableKey(sc: Scrubber, k: Key, v: Json) {
    && k.Text? && |k.s| <= KEY_LIMIT && AllClean(SECRET_PATTERNS, k.s) && k.s != "_model_content"
    && (IsSecretKey(sc.find, k.s) ==> StaysAllowed(sc, k.s, v))
  }

  predicate StaysAllowed(sc: Scrubber, text: string, v: Json) {
    || (text in sc.numericAllow && (v.JNull? || v.JBool? || v.JNumber?))
    || (text in sc.metadataAllow && (v.JDict? || v == JString(ELLIPSIS)))
  }

  lemma SearchIffOccurs(find: Matcher, re: Re, s: string)
    requires Honest(find)
    ensures Search(find, re, s) <==> Occurs(re, s)
  {
    if Search(find, re, s) {
      var i :| 0 <= i <= |s| && find(re, s[i..]).Some?;
      var n := find(re, s[i..]).value;
      assert s[i..][..n] == s[i..i + n];
    }
    if Occurs(re, s) {
      var i, j :| 0 <= i <= j <= |s| && Matches(re, s[i..j]);
      assert s[i..][..j - i] == s[i..j];
      assert MatchesAtStart(re, s[i..]);
    }
  }

  lemma AwsMatchHasA(s: string)
    requires Matches(AWS_KEY, s)
    ensures 'A' in s
  {
    var k :| 0 <= k <= |s| && Matches(Lit("AKIA"), s[..k]);
    assert s[..k][0] == 'A';
  }

  /** A text that is shorter than any secret. */
  lemma ShortIsClean(s: string)
    requires |s| < 20 || (|s| < 22 && 'A' !in s)
    ensures AllClean(SECRET_PATTERNS, s)
  {
    forall k | 0 <= k < |SECRET_PATTERNS| ensures Clean(SECRET_PATTERNS[k], s) {
      SecretPatternShuns(k);
      forall i, j | 0 <= i <= j <= |s| ensures !Matches(SECRET_PATTERNS[k], s[i..j]) {
        if Matches(SECRET_PATTERNS[k], s[i..j]) {
          MatchIsLong(SECRET_PATTERNS[k], s[i..j]);
          if k == 6 { AwsMatchHasA(s[i..j]); }
        }
      }
    }
  }

  // ---------- keys ----------

  lemma {:induction false} ReplaceKeepsBracket(find: Matcher, p: Re, s: string)
    requires Honest(find) && BracketFree(p)
    ensures '[' in s || Replace(find, p, s).1 ==> '[' in Replace(find, p, s).0
    decreases |s|
  {
    if s != "" {
      if find(p, s).Some? && find(p, s).value > 0 {
        assert MARKER[0] == '[';
        assert Replace(find, p, s).0[0] == '[';
      } else {
        ReplaceKeepsBracket(find, p, s[1..]);
        assert s == [s[0]] + s[1..];
      }
    }
  }

  /** A redaction that changed something left a bracket behind. */
  lemma {:induction false} RedactionLeavesBracket(find: Matcher, patterns: seq<Re>, s: string)
    requires Honest(find) && AllShun(patterns)
    ensures ReplaceAll(find, patterns, s).1 ==> '[' in ReplaceAll(find, patterns, s).0
  {
    if patterns != [] {
      var last := |patterns| - 1;
      assert forall k :: 0 <= k < last ==> patterns[..last][k] == patterns[k];
      RedactionLeavesBracket(find, patterns[..last], s);
      ReplaceKeepsBracket(find, patterns[last], ReplaceAll(find, patterns[..last], s).0);
    }
  }

  lemma HarmlessPatternStays(find: Matcher, text: string)
    requires Honest(find) && !Search(find, SECRET_KEY, text)
    ensures !Search(find, SECRET_KEY, RedactText(find, text, Some(KEY_LIMIT)).text)
  {
    var all := ReplaceAll(find, SECRET_PATTERNS, text).0;
    SearchIffOccurs(find, SECRET_KEY, text);
    SearchIffOccurs(find, SECRET_KEY, Cut(all, Some(KEY_LIMIT)));
    SecretKeyShuns();
    ReplaceAllKeepsClean(find, SECRET_PATTERNS, SECRET_KEY, text);
    CutIsClean([SECRET_KEY], all, Some(KEY_LIMIT));
    assert [SECRET_KEY][0] == SECRET_KEY;
  }

  lemma NotProhibited(find: Matcher, text: string)
    requires Honest(find) && text != PROHIBITED
    ensures RedactText(find, text, Some(KEY_LIMIT)).text != PROHIBITED
  {
    SecretPatternsAllShun();
    RedactionLeavesBracket(find, SECRET_PATTERNS, text);
    ReplaceAllOfClean(find, SECRET_PATTERNS, text);
    assert '[' !in PROHIBITED && |PROHIBITED| == 14;
  }

  /** Redacting and cutting a key that is not secret-named cannot make it secret-named. */
  lemma HarmlessKeyStays(find: Matcher, text: string)
    requires Honest(find) && !IsSecretKey(find, text)
    ensures !IsSecretKey(find, RedactText(find, text, Some(KEY_LIMIT)).text)
  {
    HarmlessPatternStays(find, text);
    NotProhibited(find, text);
  }

  lemma CleanKeyStays(find: Matcher, text: string)
    requires Honest(find) && |text| <= KEY_LIMIT && AllClean(SECRET_PATTERNS, text)
    ensures RedactText(find, text, Some(KEY_LIMIT)) == Redacted(text, false, false)
  {
    SecretPatternsAllShun();
    ReplaceAllOfClean(find, SECRET_PATTERNS, text);
  }

  /** The key of raw model content is never allowed. */
  lemma NotAllowed(sc: Scrubber)
    requires CallersAllow(sc)
    ensures "_model_content" !in sc.numericAllow && "_model_content" !in sc.metadataAllow
  {
    var key := "_model_content";
    assert key[0] == '_';
    forall k | k in sc.numericAllow || k in sc.metadataAllow ensures k[0] != '_' {
      AllowedKeysStart(sc, k);
    }
  }

  lemma AllowedKeysStart(sc: Scrubber, k: string)
    requires CallersAllow(sc) && (k in sc.numericAllow || k in sc.metadataAllow)
    ensures k != "" && k[0] != '_'
  {
  }

  lemma AllowedKeysAreShort(sc: Scrubber, k: string)
    requires CallersAllow(sc) && (k in sc.numericAllow || k in sc.metadataAllow)
    ensures |k| < 20 || (|k| < 22 && 'A' !in k)
  {
  }

  // ---------- every output is presentable ----------

  ghost predicate PresentableEntries(sc: Scrubber, out: seq<Entry>, depth: nat) {
    && (forall e :: e in out ==> PresentableKey(sc, e.key, e.value))
    && (forall e :: e in out ==> Presentable(sc, e.value, depth + 1))
  }

  ghost predicate PresentableDict(sc: Scrubber, v: Json, depth: nat) {
    v.JDict? && |v.entries| <= sc.limits.maxList && PresentableEntries(sc, v.entries, depth)
  }

  lemma PutPresentable(sc: Scrubber, out: seq<Entry>, key: string, v: Json, depth: nat)
    requires PresentableEntries(sc, out, depth)
    requires PresentableKey(sc, Text(key), v) && Presentable(sc, v, depth + 1)
    ensures PresentableEntries(sc, Put(out, key, v), depth) && |Put(out, key, v)| <= |out| + 1
  {
    forall e | e in Put(out, key, v) ensures e in out || e == Entry(Text(key), v) {
    }
  }

  lemma {:induction false} DictStaysDict(sc: Scrubber, entries: seq<Entry>, i: nat, out: seq<Entry>,
                                         redacted: bool, truncated: bool, depth: nat)
    requires Honest(sc.find)
    ensures ScrubEntries(sc, entries, i, out, redacted, truncated, depth).value.JDict?
    decreases entries
  {
    if entries != [] {
      match ScrubEntry(sc, entries[0], i, depth) {
        case Drop => DictStaysDict(sc, entries[1..], i + 1, out, true, truncated, depth);
        case Stop(_) =>
        case Keep(key, r) =>
          DictStaysDict(sc, entries[1..], i + 1, Put(out, key.text, r.value), redacted || key.redacted || r.redacted,
                        truncated || key.truncated || r.truncated, depth);
      }
    }
  }

  lemma AllowedValueStays(sc: Scrubber, text: string, v: Json, depth: nat)
    requires Honest(sc.find) && KeepsSecret(sc, text, v)
    ensures StaysAllowed(sc, text, Scrub(sc, v, depth + 1).value)
  {
    if v.JDict? && depth + 1 < sc.limits.maxDepth {
      DictStaysDict(sc, v.entries, 0, [], false, false, depth + 1);
    }
  }

  lemma EntryPresentable(sc: Scrubber, e: Entry, i: nat, depth: nat)
    requires Honest(sc.find) && CallersAllow(sc) && ScrubEntry(sc, e, i, depth).Keep?
    ensures var fate := ScrubEntry(sc, e, i, depth); PresentableKey(sc, Text(fate.key.text), fate.value.value)
  {
    RedactTextIsClean(sc.find, KeyText(e.key), Some(KEY_LIMIT));
    if IsSecretKey(sc.find, KeyText(e.key)) {
      AllowedKeysAreShort(sc, KeyText(e.key));
      ShortIsClean(KeyText(e.key));
      NotAllowed(sc);
      CleanKeyStays(sc.find, KeyText(e.key));
      AllowedValueStays(sc, KeyText(e.key), e.value, depth);
    } else {
      HarmlessKeyStays(sc.find, KeyText(e.key));
    }
  }

  lemma EllipsisPresentable(sc: Scrubber, depth: nat)
    ensures Presentable(sc, JString(ELLIPSIS), depth)
  {
    ShortIsClean(ELLIPSIS);
  }

  lemma {:induction false} ScrubPresentable(sc: Scrubber, v: Json, depth: nat)
    requires Honest(sc.find) && CallersAllow(sc)
    ensures Presentable(sc, Scrub(sc, v, depth).value, depth)
    decreases v, 1
  {
    match v
    case JDict(entries) =>
      if depth >= sc.limits.maxDepth {
        EllipsisPresentable(sc, depth);
      } else {
        ScrubEntriesPresentable(sc, entries, 0, [], false, false, depth);
      }
    case JList(items) =>
      if depth < sc.limits.maxDepth {
        ScrubItemsPresentable(sc, items, 0, [], false, false, depth);
      }
    case JString(s) => RedactTextIsClean(sc.find, s, Some(sc.limits.maxStr));
    case JOpaque(repr) => RedactTextIsClean(sc.find, repr, Some(sc.limits.maxStr));
    case _ =>
  }

  lemma {:induction false} ScrubEntryPresentable(sc: Scrubber, e: Entry, i: nat, depth: nat)
    requires Honest(sc.find) && CallersAllow(sc) && ScrubEntry(sc, e, i, depth).Keep?
    ensures Presentable(sc, ScrubEntry(sc, e, i, depth).value.value, depth + 1)
    decreases e, 0
  {
    ScrubPresentable(sc, e.value, depth + 1);
  }

  lemma {:induction false} KeptPresentable(sc: Scrubber, e: Entry, i: nat, out: seq<Entry>, depth: nat)
    requires Honest(sc.find) && CallersAllow(sc) && ScrubEntry(sc, e, i, depth).Keep?
    requires PresentableEntries(sc, out, depth)
    ensures var fate := ScrubEntry(sc, e, i, depth); var out' := Put(out, fate.key.text, fate.value.value);
            PresentableEntries(sc, out', depth) && |out'| <= |out| + 1
    decreases e, 1
  {
    EntryPresentable(sc, e, i, depth);
    ScrubEntryPresentable(sc, e, i, depth);
    var fate := ScrubEntry(sc, e, i, depth);
    PutPresentable(sc, out, fate.key.text, fate.value.value, depth);
  }

  lemma {:induction false} ScrubEntriesPresentable(sc: Scrubber, entries: seq<Entry>, i: nat, out: seq<Entry>,
                                                   redacted: bool, truncated: bool, depth: nat)
    requires Honest(sc.find) && CallersAllow(sc) && depth < sc.limits.maxDepth
    requires |out| <= i && |out| <= sc.limits.maxList && PresentableEntries(sc, out, depth)
    ensures PresentableDict(sc, ScrubEntries(sc, entries, i, out, redacted, truncated, depth).value, depth)
    decreases entries, 0
  {
    if entries != [] {
      var fate := ScrubEntry(sc, entries[0], i, depth);
      match fate {
        case Drop => ScrubEntriesPresentable(sc, entries[1..], i + 1, out, true, truncated, depth);
        case Stop(_) =>
        case Keep(key, r) =>
          KeptPresentable(sc, entries[0], i, out, depth);
          ScrubEntriesPresentable(sc, entries[1..], i + 1, Put(out, key.text, r.value),
            redacted || key.redacted || r.redacted, truncated || key.truncated || r.truncated, depth);
      }
    }
  }

  lemma {:induction false} ScrubItemsPresentable(sc: Scrubber, items: seq<Json>, i: nat, out: seq<Json>,
                                                 redacted: bool, truncated: bool, depth: nat)
    requires Honest(sc.find) && CallersAllow(sc) && depth < sc.limits.maxDepth
    requires |out| == i && |out| <= sc.limits.maxList && forall e :: e in out ==> Presentable(sc, e, depth + 1)
    ensures Presentable(sc, ScrubItems(sc, items, i, out, redacted, truncated, depth).value, depth)
    decreases items, 0
  {
    if items != [] && i < sc.limits.maxList {
      var r := Scrub(sc, items[0], depth + 1);
      ScrubPresentable(sc, items[0], depth + 1);
      ScrubItemsPresentable(sc, items[1..], i + 1, out + [r.value], redacted || r.redacted,
                            truncated || r.truncated, depth);
    }
  }

  // ---------- nothing flagged, nothing changed ----------

  ghost predicate DistinctKeys(entries: seq<Entry>) {
    forall j, k :: 0 <= j < k < |entries| ==> KeyText(entries[j].key) != KeyText(entries[k].key)
  }

  /** Proper JSON: string keys, each once, and no foreign values. */
  ghost predicate IsJson(v: Json) {
    match v
    case JDict(entries) =>
      DistinctKeys(entries) && (forall e :: e in entries ==> e.key.Text?) &&
      (forall e :: e in entries ==> IsJson(e.value))
    case JList(items) => forall e :: e in items ==> IsJson(e)
    case JOpaque(_) => false
    case _ => true
  }

  lemma {:induction false} ScrubUnchanged(sc: Scrubber, v: Json, depth: nat)
    requires Honest(sc.find) && IsJson(v)
    ensures var r := Scrub(sc, v, depth); !r.redacted && !r.truncated ==> r.value == v
    decreases v, 1
  {
    match v
    case JDict(entries) =>
      if depth < sc.limits.maxDepth {
        ScrubEntriesUnchanged(sc, entries, 0, [], false, false, depth);
        assert [] + entries == entries;
      }
    case JList(items) =>
      if depth < sc.limits.maxDepth {
        ScrubItemsUnchanged(sc, items, 0, [], false, false, depth);
        assert [] + items == items;
      }
    case JString(s) => RedactTextFlags(sc.find, s, Some(sc.limits.maxStr));
    case _ =>
  }

  lemma {:induction false} ScrubEntryUnchanged(sc: Scrubber, e: Entry, i: nat, depth: nat)
    requires Honest(sc.find) && e.key.Text? && IsJson(e.value)
    ensures match ScrubEntry(sc, e, i, depth)
            case Keep(key, r) =>
              !key.redacted && !key.truncated && !r.redacted && !r.truncated ==> e == Entry(Text(key.text), r.value)
            case _ => true
    decreases e, 0
  {
    RedactTextFlags(sc.find, KeyText(e.key), Some(KEY_LIMIT));
    ScrubUnchanged(sc, e.value, depth + 1);
  }

  /** A flag that is up stays up. */
  lemma {:induction false} FlagsStay(sc: Scrubber, entries: seq<Entry>, i: nat, out: seq<Entry>,
                                     redacted: bool, truncated: bool, depth: nat)
    requires Honest(sc.find)
    ensures var r := ScrubEntries(sc, entries, i, out, redacted, truncated, depth);
            (redacted ==> r.redacted) && (truncated ==> r.truncated)
    decreases entries
  {
    if entries != [] {
      match ScrubEntry(sc, entries[0], i, depth) {
        case Drop => FlagsStay(sc, entries[1..], i + 1, out, true, truncated, depth);
        case Stop(_) =>
        case Keep(key, r) =>
          FlagsStay(sc, entries[1..], i + 1, Put(out, key.text, r.value), redacted || key.redacted || r.redacted,
                    truncated || key.truncated || r.truncated, depth);
      }
    }
  }

  lemma PutNew(out: seq<Entry>, e: Entry, rest: seq<Entry>)
    requires e.key.Text? && DistinctKeys(out + ([e] + rest))
    ensures Put(out, e.key.s, e.value) == out + [e]
  {
    var i := Find(out, e.key.s);
    var all := out + ([e] + rest);
    assert all[|out|] == e && forall j :: 0 <= j < |out| ==> all[j] == out[j];
    assert forall j :: 0 <= j < |out| ==> KeyText(all[j].key) != KeyText(all[|out|].key);
  }

  lemma {:induction false} ScrubEntriesUnchanged(sc: Scrubber, entries: seq<Entry>, i: nat, out: seq<Entry>,
                                                 redacted: bool, truncated: bool, depth: nat)
    requires Honest(sc.find) && DistinctKeys(out + entries)
    requires forall e :: e in entries ==> e.key.Text?
    requires forall e :: e in entries ==> IsJson(e.value)
    ensures var r := ScrubEntries(sc, entries, i, out, redacted, truncated, depth);
            !r.redacted && !r.truncated ==> r.value == JDict(out + entries)
    decreases entries, 0
  {
    if entries == [] {
      assert out + [] == out;
    } else {
      var e, rest := entries[0], entries[1..];
      assert entries == [e] + rest && out + entries == (out + [e]) + rest;
      match ScrubEntry(sc, e, i, depth) {
        case Drop => FlagsStay(sc, rest, i + 1, out, true, truncated, depth);
        case Stop(_) =>
        case Keep(key, r) =>
          ScrubEntryUnchanged(sc, e, i, depth);
          var red, trunc := redacted || key.redacted || r.redacted, truncated || key.truncated || r.truncated;
          FlagsStay(sc, rest, i + 1, Put(out, key.text, r.value), red, trunc, depth);
          if !red && !trunc {
            PutNew(out, e, rest);
            ScrubEntriesUnchanged(sc, rest, i + 1, out + [e], red, trunc, depth);
          }
      }
    }
  }

  lemma {:induction false} ItemFlagsStay(sc: Scrubber, items: seq<Json>, i: nat, out: seq<Json>,
                                         redacted: bool, truncated: bool, depth: nat)
    requires Honest(sc.find)
    ensures var r := ScrubItems(sc, items, i, out, redacted, truncated, depth);
            (redacted ==> r.redacted) && (truncated ==> r.truncated)
    decreases items
  {
    if items != [] && i < sc.limits.maxList {
      var r := Scrub(sc, items[0], depth + 1);
      ItemFlagsStay(sc, items[1..], i + 1, out + [r.value], redacted || r.redacted, truncated || r.truncated, depth);
    }
  }

  lemma {:induction false} ScrubItemsUnchanged(sc: Scrubber, items: seq<Json>, i: nat, out: seq<Json>,
                                               redacted: bool, truncated: bool, depth: nat)
    requires Honest(sc.find) && forall e :: e in items ==> IsJson(e)
    ensures var r := ScrubItems(sc, items, i, out, redacted, truncated, depth);
            !r.redacted && !r.truncated ==> r.value == JList(out + items)
    decreases items, 0
  {
    if items == [] {
      assert out + [] == out;
    } else if i < sc.limits.maxList {
      var r := Scrub(sc, items[0], depth + 1);
      var red, trunc := redacted || r.redacted, truncated || r.truncated;
      ScrubUnchanged(sc, items[0], depth + 1);
      ItemFlagsStay(sc, items[1..], i + 1, out + [r.value], red, trunc, depth);
      ScrubItemsUnchanged(sc, items[1..], i + 1, out + [r.value], red, trunc, depth);
      assert out + items == (out + [items[0]]) + items[1..];
    }
  }

  // ---------- what is kept, and when anything is flagged ----------

  function Least(a: nat, b: nat): nat {
    if a <= b then a else b
  }

  /** A list is scrubbed item by item, up to the width limit; its flags are those of the kept items, and it is
      truncated if there are more. */
  lemma {:induction false} ScrubbedItems(sc: Scrubber, items: seq<Json>, i: nat, out: seq<Json>,
                                         redacted: bool, truncated: bool, depth: nat)
    requires Honest(sc.find) && i <= |items| && |out| == Least(i, sc.limits.maxList)
    requires i <= sc.limits.maxList
    ensures var r := ScrubItems(sc, items[i..], i, out, redacted, truncated, depth);
            var n := Least(|items|, sc.limits.maxList);
            && r.value.JList? && |r.value.items| == n && out <= r.value.items
            && (forall j :: i <= j < n ==> r.value.items[j] == Scrub(sc, items[j], depth + 1).value)
            && (r.redacted <==> redacted || exists j :: i <= j < n && Scrub(sc, items[j], depth + 1).redacted)
            && (r.truncated <==> truncated || n < |items| ||
                                 exists j :: i <= j < n && Scrub(sc, items[j], depth + 1).truncated)
    decreases |items| - i
  {
    if i < |items| && i < sc.limits.maxList {
      var r := Scrub(sc, items[i], depth + 1);
      assert items[i..][0] == items[i] && items[i..][1..] == items[i + 1..];
      ScrubbedItems(sc, items, i + 1, out + [r.value], redacted || r.redacted, truncated || r.truncated, depth);
    }
  }

  lemma ListScrubbed(sc: Scrubber, items: seq<Json>, depth: nat)
    requires Honest(sc.find) && depth < sc.limits.maxDepth
    ensures var r, n := Scrub(sc, JList(items), depth), Least(|items|, sc.limits.maxList);
            && r.value == JList(seq(n, j requires 0 <= j < n => Scrub(sc, items[j], depth + 1).value))
            && (r.redacted <==> exists j :: 0 <= j < n && Scrub(sc, items[j], depth + 1).redacted)
            && (r.truncated <==> n < |items| || exists j :: 0 <= j < n && Scrub(sc, items[j], depth + 1).truncated)
  {
    assert items[0..] == items;
    ScrubbedItems(sc, items, 0, [], false, false, depth);
  }

  /** The entry goes out under its redacted key. */
  function KeptEntry(sc: Scrubber, e: Entry, depth: nat): Entry
    requires Honest(sc.find)
  {
    Entry(Text(RedactText(sc.find, KeyText(e.key), Some(KEY_LIMIT)).text), Scrub(sc, e.value, depth + 1).value)
  }

  predicate IsDropped(sc: Scrubber, e: Entry) {
    IsSecretKey(sc.find, KeyText(e.key)) && !KeepsSecret(sc, KeyText(e.key), e.value)
  }

  /** What is kept of the entries from position i on: those within the width that are not dropped for their key. */
  function KeptFrom(sc: Scrubber, entries: seq<Entry>, i: nat, depth: nat): seq<Entry>
    requires Honest(sc.find) && i <= |entries|
    decreases |entries| - i
  {
    if i == |entries| || i >= sc.limits.maxList then []
    else if IsDropped(sc, entries[i]) then KeptFrom(sc, entries, i + 1, depth)
    else [KeptEntry(sc, entries[i], depth)] + KeptFrom(sc, entries, i + 1, depth)
  }

  lemma KeptNext(out: seq<Entry>, kept: Entry, more: seq<Entry>, all: seq<Entry>)
    requires kept.key.Text? && all == [kept] + more && DistinctKeys(out + all)
    ensures Put(out, kept.key.s, kept.value) == out + [kept] && out + all == out + [kept] + more
  {
    PutNew(out, kept, more);
    assert out + ([kept] + more) == out + [kept] + more;
  }

  lemma {:induction false} ScrubbedEntries(sc: Scrubber, entries: seq<Entry>, i: nat, out: seq<Entry>,
                                           redacted: bool, truncated: bool, depth: nat)
    requires Honest(sc.find) && i <= |entries| && DistinctKeys(out + KeptFrom(sc, entries, i, depth))
    ensures var r := ScrubEntries(sc, entries[i..], i, out, redacted, truncated, depth);
            r.value == JDict(out + KeptFrom(sc, entries, i, depth))
    decreases |entries| - i
  {
    if i < |entries| {
      var e, rest := entries[i], entries[i + 1..];
      assert entries[i..][0] == e && entries[i..][1..] == rest;
      match ScrubEntry(sc, e, i, depth) {
        case Drop =>
          assert KeptFrom(sc, entries, i, depth) == KeptFrom(sc, entries, i + 1, depth);
          ScrubbedEntries(sc, entries, i + 1, out, true, truncated, depth);
        case Stop(_) =>
          assert out + [] == out;
        case Keep(key, v) =>
          var kept, more := KeptEntry(sc, e, depth), KeptFrom(sc, entries, i + 1, depth);
          KeptNext(out, kept, more, KeptFrom(sc, entries, i, depth));
          ScrubbedEntries(sc, entries, i + 1, out + [kept], redacted || key.redacted || v.redacted,
                          truncated || key.truncated || v.truncated, depth);
      }
    } else {
      assert out + [] == out;
    }
  }

  /** A dictionary keeps, in order, its entries within the width limit whose key is not secret, each under its
      redacted key, as long as no two of these keys fall together. */
  lemma DictScrubbed(sc: Scrubber, entries: seq<Entry>, depth: nat)
    requires Honest(sc.find) && depth < sc.limits.maxDepth && DistinctKeys(KeptFrom(sc, entries, 0, depth))
    ensures Scrub(sc, JDict(entries), depth).value == JDict(KeptFrom(sc, entries, 0, depth))
  {
    assert entries[0..] == entries && [] + KeptFrom(sc, entries, 0, depth) == KeptFrom(sc, entries, 0, depth);
    ScrubbedEntries(sc, entries, 0, [], false, false, depth);
  }

  /** Nothing about the payload calls for a change: it is within every limit, no secret occurs in it, and no key is
      secret-named but the allowed ones. */
  ghost predicate IsHarmless(sc: Scrubber, v: Json, depth: nat) {
    match v
    case JString(s) => |s| <= sc.limits.maxStr && AllClean(SECRET_PATTERNS, s)
    case JList(items) =>
      && depth < sc.limits.maxDepth && |items| <= sc.limits.maxList
      && forall e :: e in items ==> IsHarmless(sc, e, depth + 1)
    case JDict(entries) =>
      && depth < sc.limits.maxDepth && |entries| <= sc.limits.maxList
      && (forall e :: e in entries ==> IsHarmlessKey(sc, e))
      && (forall e :: e in entries ==> IsHarmless(sc, e.value, depth + 1))
    case JOpaque(_) => false
    case _ => true
  }

  ghost predicate IsHarmlessKey(sc: Scrubber, e: Entry) {
    var text := KeyText(e.key);
    && |text| <= KEY_LIMIT && AllClean(SECRET_PATTERNS, text)
    && (IsSecretKey(sc.find, text) ==>
          || (text in sc.numericAllow && (e.value.JNull? || e.value.JBool? || e.value.JNumber?))
          || (text in sc.metadataAllow && e.value.JDict?))
  }

  /** No flag is up. */
  predicate IsPlain(r: Scrubbed) {
    !r.redacted && !r.truncated
  }

  lemma TextPlainIff(find: Matcher, s: string, limit: nat)
    requires Honest(find)
    ensures var r := RedactText(find, s, Some(limit));
            !r.redacted && !r.truncated <==> |s| <= limit && AllClean(SECRET_PATTERNS, s)
  {
    RedactTextFlags(find, s, Some(limit));
    SecretPatternsAllShun();
    ReplaceAllOfClean(find, SECRET_PATTERNS, s);
  }

  /** No flag is raised exactly for a harmless payload. */
  lemma {:induction false} PlainIffHarmless(sc: Scrubber, v: Json, depth: nat)
    requires Honest(sc.find)
    ensures IsPlain(Scrub(sc, v, depth)) <==> IsHarmless(sc, v, depth)
    decreases v, 1
  {
    match v
    case JDict(entries) => if depth < sc.limits.maxDepth { PlainEntries(sc, entries, 0, [], false, false, depth); }
    case JList(items) =>
      if depth < sc.limits.maxDepth {
        ListScrubbed(sc, items, depth);
        PlainItems(sc, items, depth);
        assert IsPlain(Scrub(sc, v, depth)) <==>
               |items| <= sc.limits.maxList && forall j :: 0 <= j < |items| ==> IsPlain(Scrub(sc, items[j], depth + 1));
      }
    case JString(s) => TextPlainIff(sc.find, s, sc.limits.maxStr);
    case _ =>
  }

  lemma {:induction false} PlainItems(sc: Scrubber, items: seq<Json>, depth: nat)
    requires Honest(sc.find)
    ensures (forall j :: 0 <= j < |items| ==> IsPlain(Scrub(sc, items[j], depth + 1))) <==>
            forall e :: e in items ==> IsHarmless(sc, e, depth + 1)
    decreases items, 0
  {
    forall j | 0 <= j < |items|
      ensures IsPlain(Scrub(sc, items[j], depth + 1)) <==> IsHarmless(sc, items[j], depth + 1)
    {
      PlainIffHarmless(sc, items[j], depth + 1);
    }
    if forall j :: 0 <= j < |items| ==> IsPlain(Scrub(sc, items[j], depth + 1)) {
      forall e | e in items ensures IsHarmless(sc, e, depth + 1) {
        var j :| 0 <= j < |items| && items[j] == e;
        assert IsPlain(Scrub(sc, items[j], depth + 1));
      }
    } else {
      var j :| 0 <= j < |items| && !IsPlain(Scrub(sc, items[j], depth + 1));
      assert items[j] in items;
    }
  }

  /** The loop over the entries from position i on raises no flag exactly if none is up and all of these are
      harmless and within the width. */
  lemma {:induction false} PlainEntries(sc: Scrubber, entries: seq<Entry>, i: nat, out: seq<Entry>,
                                        redacted: bool, truncated: bool, depth: nat)
    requires Honest(sc.find)
    ensures IsPlain(ScrubEntries(sc, entries, i, out, redacted, truncated, depth)) <==>
            && !redacted && !truncated && (entries != [] ==> i + |entries| <= sc.limits.maxList)
            && (forall e :: e in entries ==> IsHarmlessKey(sc, e))
            && (forall e :: e in entries ==> IsHarmless(sc, e.value, depth + 1))
    decreases entries, 0
  {
    if entries != [] {
      var e, rest := entries[0], entries[1..];
      assert entries == [e] + rest;
      PlainEntry(sc, e, i, depth);
      match ScrubEntry(sc, e, i, depth) {
        case Drop => PlainEntries(sc, rest, i + 1, out, true, truncated, depth);
        case Stop(_) =>
        case Keep(key, r) =>
          PlainEntries(sc, rest, i + 1, Put(out, key.text, r.value), redacted || key.redacted || r.redacted,
                       truncated || key.truncated || r.truncated, depth);
      }
    }
  }

  lemma {:induction false} PlainEntry(sc: Scrubber, e: Entry, i: nat, depth: nat)
    requires Honest(sc.find)
    ensures match ScrubEntry(sc, e, i, depth)
            case Drop => !IsHarmlessKey(sc, e)
            case Stop(_) => i >= sc.limits.maxList
            case Keep(key, r) =>
              i < sc.limits.maxList && (!key.redacted && !key.truncated && IsPlain(r) <==>
                                        IsHarmlessKey(sc, e) && IsHarmless(sc, e.value, depth + 1))
    decreases e, 0
  {
    TextPlainIff(sc.find, KeyText(e.key), KEY_LIMIT);
    PlainIffHarmless(sc, e.value, depth + 1);
  }

  // ---------- the budget ----------

  const TIERS: seq<Limits> := [Limits(5, 25, 500), Limits(4, 15, 200), Limits(3, 8, 100), Limits(2, 5, 60)]
  const COLLAPSED: Json := JDict([Entry(Text("_truncated"), JBool(true))])

  /** The length of the serialised payload, or none if it cannot be serialised. */
  type Sizer = Json -> Option<nat>

  /** Tries the tiers from the k-th on; the flags accumulate over the tiers tried. */
  function BoundFrom(sc: Scrubber, size: Sizer, v: Json, budget: nat, tiers: seq<Limits>,
                     redacted: bool, truncated: bool): Scrubbed
    requires Honest(sc.find)
    decreases tiers
  {
    if tiers == [] then Scrubbed(COLLAPSED, true, true)
    else
      var r := Scrub(sc.(limits := tiers[0]), v, 0);
      match size(r.value)
      case None => Scrubbed(COLLAPSED, true, true)
      case Some(n) =>
        if n <= budget then Scrubbed(r.value, redacted || r.redacted, truncated || r.truncated)
        else BoundFrom(sc, size, v, budget, tiers[1..], redacted || r.redacted, true)
  }

  /** Every result is the collapse marker, or fits the budget and is presentable at one of the tiers. */
  lemma {:induction false} BoundIsPresentable(sc: Scrubber, size: Sizer, v: Json, budget: nat, tiers: seq<Limits>,
                                              redacted: bool, truncated: bool)
    requires Honest(sc.find) && CallersAllow(sc)
    ensures var r := BoundFrom(sc, size, v, budget, tiers, redacted, truncated);
            || r == Scrubbed(COLLAPSED, true, true)
            || (size(r.value).Some? && size(r.value).value <= budget
                && exists k :: 0 <= k < |tiers| && Presentable(sc.(limits := tiers[k]), r.value, 0))
    decreases tiers
  {
    if tiers != [] {
      var r := Scrub(sc.(limits := tiers[0]), v, 0);
      ScrubPresentable(sc.(limits := tiers[0]), v, 0);
      BoundIsPresentable(sc, size, v, budget, tiers[1..], redacted || r.redacted, true);
    }
  }

  lemma {:induction false} LaterTiersTruncate(sc: Scrubber, size: Sizer, v: Json, budget: nat, tiers: seq<Limits>,
                                              redacted: bool)
    requires Honest(sc.find)
    ensures BoundFrom(sc, size, v, budget, tiers, redacted, true).truncated
    decreases tiers
  {
    if tiers != [] {
      LaterTiersTruncate(sc, size, v, budget, tiers[1..], redacted || Scrub(sc.(limits := tiers[0]), v, 0).redacted);
    }
  }

  /** If neither flag is set, a JSON payload comes back as it went in. */
  lemma UnflaggedIsUnchanged(sc: Scrubber, size: Sizer, v: Json, budget: nat)
    requires Honest(sc.find) && IsJson(v)
    ensures var r := BoundFrom(sc, size, v, budget, TIERS, false, false);
            !r.redacted && !r.truncated ==> r.value == v
  {
    var r := Scrub(sc.(limits := TIERS[0]), v, 0);
    ScrubUnchanged(sc.(limits := TIERS[0]), v, 0);
    LaterTiersTruncate(sc, size, v, budget, TIERS[1..], r.redacted);
  }

  /** The payload scrubbed at the k-th tier. */
  function AtTier(sc: Scrubber, v: Json, tiers: seq<Limits>, k: nat): Scrubbed
    requires Honest(sc.find) && k < |tiers|
  {
    Scrub(sc.(limits := tiers[k]), v, 0)
  }

  predicate Fits(size: Sizer, v: Json, budget: nat) {
    size(v).Some? && size(v).value <= budget
  }

  /** The k-th tier fits; those before it could be serialised, but did not. */
  ghost predicate FitsFirst(sc: Scrubber, size: Sizer, v: Json, budget: nat, tiers: seq<Limits>, k: nat)
    requires Honest(sc.find)
  {
    && k < |tiers| && Fits(size, AtTier(sc, v, tiers, k).value, budget)
    && forall j: nat :: j < k ==> var w := AtTier(sc, v, tiers, j).value; size(w).Some? && size(w).value > budget
  }

  lemma FitsLater(sc: Scrubber, size: Sizer, v: Json, budget: nat, tiers: seq<Limits>, k: nat)
    requires Honest(sc.find) && tiers != []
    requires var w := AtTier(sc, v, tiers, 0).value; size(w).Some? && size(w).value > budget
    ensures FitsFirst(sc, size, v, budget, tiers, k + 1) <==> FitsFirst(sc, size, v, budget, tiers[1..], k)
  {
    if FitsFirst(sc, size, v, budget, tiers, k + 1) {
      forall j: nat | j < k
        ensures var w := AtTier(sc, v, tiers[1..], j).value; size(w).Some? && size(w).value > budget
      {
        assert AtTier(sc, v, tiers[1..], j) == AtTier(sc, v, tiers, j + 1);
      }
    }
    if FitsFirst(sc, size, v, budget, tiers[1..], k) {
      forall j: nat | j < k + 1
        ensures var w := AtTier(sc, v, tiers, j).value; size(w).Some? && size(w).value > budget
      {
        if j > 0 { assert AtTier(sc, v, tiers[1..], j - 1) == AtTier(sc, v, tiers, j); }
      }
    }
  }

  /** The result is the payload at the first tier that fits: redacted if it was so at this or an earlier tier,
      truncated if it is or an earlier tier was tried. */
  lemma {:induction false} BoundTakesFirst(sc: Scrubber, size: Sizer, v: Json, budget: nat, tiers: seq<Limits>,
                                           redacted: bool, truncated: bool, k: nat)
    requires Honest(sc.find) && FitsFirst(sc, size, v, budget, tiers, k)
    ensures var r := BoundFrom(sc, size, v, budget, tiers, redacted, truncated);
            && r.value == AtTier(sc, v, tiers, k).value
            && (r.redacted <==> redacted || exists j: nat :: j <= k && AtTier(sc, v, tiers, j).redacted)
            && (r.truncated <==> truncated || k > 0 || AtTier(sc, v, tiers, k).truncated)
    decreases tiers
  {
    var first := AtTier(sc, v, tiers, 0);
    if k > 0 {
      FitsLater(sc, size, v, budget, tiers, k - 1);
      BoundTakesFirst(sc, size, v, budget, tiers[1..], redacted || first.redacted, true, k - 1);
      forall j: nat | j < k ensures AtTier(sc, v, tiers[1..], j) == AtTier(sc, v, tiers, j + 1) {
      }
      if j: nat :| j <= k && AtTier(sc, v, tiers, j).redacted {
        if j > 0 { assert AtTier(sc, v, tiers[1..], j - 1).redacted; }
      }
    }
  }

  /** The marker stands for a payload that fits at no tier, or cannot be serialised before one fits. */
  lemma {:induction false} BoundCollapses(sc: Scrubber, size: Sizer, v: Json, budget: nat, tiers: seq<Limits>,
                                          redacted: bool, truncated: bool)
    requires Honest(sc.find) && forall k: nat :: !FitsFirst(sc, size, v, budget, tiers, k)
    ensures BoundFrom(sc, size, v, budget, tiers, redacted, truncated) ==
            Scrubbed(JDict([Entry(Text("_truncated"), JBool(true))]), true, true)
    decreases tiers
  {
    if tiers != [] {
      var first := AtTier(sc, v, tiers, 0);
      assert !FitsFirst(sc, size, v, budget, tiers, 0);
      if size(first.value).Some? {
        forall k: nat ensures !FitsFirst(sc, size, v, budget, tiers[1..], k) {
          FitsLater(sc, size, v, budget, tiers, k);
          assert !FitsFirst(sc, size, v, budget, tiers, k + 1);
        }
        BoundCollapses(sc, size, v, budget, tiers[1..], redacted || first.redacted, true);
      }
    }
  }

  /** A JSON payload comes back as it went in, unflagged, exactly if it is harmless under the limits of the first
      tier and fits the budget. */
  lemma BoundUnchangedIff(sc: Scrubber, size: Sizer, v: Json, budget: nat)
    requires Honest(sc.find) && IsJson(v)
    ensures BoundFrom(sc, size, v, budget, TIERS, false, false) == Scrubbed(v, false, false) <==>
            IsHarmless(sc.(limits := Limits(5, 25, 500)), v, 0) && Fits(size, v, budget)
  {
    var sc1 := sc.(limits := TIERS[0]);
    var first := Scrub(sc1, v, 0);
    PlainIffHarmless(sc1, v, 0);
    ScrubUnchanged(sc1, v, 0);
    LaterTiersTruncate(sc, size, v, budget, TIERS[1..], first.redacted);
  }

  method BoundPayload(sc: Scrubber, size: Sizer, v: Json, budget: nat) returns (r: Scrubbed)
    requires Honest(sc.find)
    ensures r == BoundFrom(sc, size, v, budget, TIERS, false, false)
  {
    var redacted, truncated := false, false;
    for k := 0 to |TIERS|
      invariant BoundFrom(sc, size, v, budget, TIERS[k..], redacted, truncated) ==
                BoundFrom(sc, size, v, budget, TIERS, false, false)
    {
      assert TIERS[k..][1..] == TIERS[k + 1..];
      var out := ScrubValue(sc.(limits := TIERS[k]), v, 0);
      redacted := redacted || out.redacted;
      truncated := truncated || out.truncated;
      var n := size(out.value);
      if n.None? {
        truncated := true;
        break;
      }
      if n.value <= budget {
        return Scrubbed(out.value, redacted, truncated);
      }
      truncated := true;
    }
    return Scrubbed(COLLAPSED, true, true);
  }
}
