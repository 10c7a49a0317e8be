// Post-processing of the evaluation: character normalisation, position
// lists per document and their de-duplication and combination.

module Evaluation {
  import opened Wrappers
  import opened Text
  import opened Dicts
  import opened Folds
  import opened Seqs

  // ---------------------------------------------------------------------
  // Character normalisation

  const LeftDoubleQuote: char := '\U{201C}'
  const RightDoubleQuote: char := '\U{201D}'
  const RightSingleQuote: char := '\U{2019}'
  const NoBreakSpace: char := '\U{A0}'
  const SoftHyphen: char := '\U{AD}'

  /** The characters `_replace_characters` removes from a text. */
  predicate Normalized(s: string)
  {
    && LeftDoubleQuote !in s && RightDoubleQuote !in s && RightSingleQuote !in s
    && NoBreakSpace !in s && SoftHyphen !in s
  }

  /**
   * `_replace_characters`: typographic double quotes become `"`, the right
   * single quote `'`, a no-break space a space, and soft hyphens are dropped,
   * applied as five `str.replace` calls in that order.
   */
  function ReplaceCharacters(text: string): string
  {
    var s1 := ReplaceAll(text, [LeftDoubleQuote], "\"");
    var s2 := ReplaceAll(s1, [RightDoubleQuote], "\"");
    var s3 := ReplaceAll(s2, [RightSingleQuote], "'");
    var s4 := ReplaceAll(s3, [NoBreakSpace], " ");
    ReplaceAll(s4, [SoftHyphen], "")
  }

  /** The normalised text contains none of the five characters. */
  lemma ReplaceCharactersNormalizes(text: string)
    ensures Normalized(ReplaceCharacters(text))
  {
    var s1 := ReplaceAll(text, [LeftDoubleQuote], "\"");
    var s2 := ReplaceAll(s1, [RightDoubleQuote], "\"");
    var s3 := ReplaceAll(s2, [RightSingleQuote], "'");
    var s4 := ReplaceAll(s3, [NoBreakSpace], " ");
    ReplaceCharIsMap(text, LeftDoubleQuote, "\"");
    ReplaceCharIsMap(s1, RightDoubleQuote, "\"");
    ReplaceCharIsMap(s2, RightSingleQuote, "'");
    ReplaceCharIsMap(s3, NoBreakSpace, " ");
    ReplaceCharIsMap(s4, SoftHyphen, "");
    MapCharRemoves(text, LeftDoubleQuote, "\"");
    MapCharRemoves(s1, RightDoubleQuote, "\"");
    MapCharRemoves(s2, RightSingleQuote, "'");
    MapCharRemoves(s3, NoBreakSpace, " ");
    MapCharRemoves(s4, SoftHyphen, "");
  }

  /** A text free of the five characters is left as it is. */
  lemma ReplaceCharactersKeepsNormalized(text: string)
    requires Normalized(text)
    ensures ReplaceCharacters(text) == text
  {
    ReplaceCharIsMap(text, LeftDoubleQuote, "\"");
    MapCharIdentity(text, LeftDoubleQuote, "\"");
    ReplaceCharIsMap(text, RightDoubleQuote, "\"");
    MapCharIdentity(text, RightDoubleQuote, "\"");
    ReplaceCharIsMap(text, RightSingleQuote, "'");
    MapCharIdentity(text, RightSingleQuote, "'");
    ReplaceCharIsMap(text, NoBreakSpace, " ");
    MapCharIdentity(text, NoBreakSpace, " ");
    ReplaceCharIsMap(text, SoftHyphen, "");
    MapCharIdentity(text, SoftHyphen, "");
  }

  /** Normalising twice is normalising once. */
  lemma ReplaceCharactersIdempotent(text: string)
    ensures ReplaceCharacters(ReplaceCharacters(text)) == ReplaceCharacters(text)
  {
    ReplaceCharactersNormalizes(text);
    ReplaceCharactersKeepsNormalized(ReplaceCharacters(text));
  }

  /**
   * The source text as `locate_identifiers` searches it: normalised, then
   * once more rid of no-break spaces and soft hyphens.
   */
  function NormalizedSource(text: string): string
  {
    ReplaceAll(ReplaceAll(ReplaceCharacters(text), [NoBreakSpace], " "), [SoftHyphen], "")
  }

  /** The two extra replacements change nothing: the searched text is the normalised text. */
  lemma NormalizedSourceIsNormalized(text: string)
    ensures NormalizedSource(text) == ReplaceCharacters(text)
    ensures Normalized(NormalizedSource(text))
  {
    var s := ReplaceCharacters(text);
    ReplaceCharactersNormalizes(text);
    ReplaceCharIsMap(s, NoBreakSpace, " ");
    MapCharIdentity(s, NoBreakSpace, " ");
    ReplaceCharIsMap(s, SoftHyphen, "");
    MapCharIdentity(s, SoftHyphen, "");
  }

  /** `text[:-1][1:]`: the first and the last character dropped. */
  function RemoveFirstLastCharacter(text: string): (r: string)
    ensures |r| == if |text| >= 2 then |text| - 2 else 0
    ensures |text| >= 2 ==> r == text[1..|text| - 1]
  {
    var withoutLast := if |text| > 0 then text[..|text| - 1] else text;
    Drop(withoutLast, 1)
  }

  // ---------------------------------------------------------------------
  // Case-insensitive literal search (`re.escape` patterns with `re.IGNORECASE`)

  /** `pat` matches `text` at `i`, letters compared case-insensitively. */
  predicate MatchesAt(text: string, pat: string, i: nat)
  {
    && i + |pat| <= |text|
    && forall k :: 0 <= k < |pat| ==> LowerChar(text[i + k]) == LowerChar(pat[k])
  }

  /**
   * `finditer` from position `from`: the leftmost match is taken and the
   * scan resumes at its end; an empty pattern matches at every position,
   * the end of the text included.
   */
  function FindAll(text: string, pat: string, from: nat): seq<(nat, nat)>
    decreases |text| + 1 - from
  {
    if from > |text| then []
    else if |pat| == 0 then [(from, from)] + FindAll(text, pat, from + 1)
    else if MatchesAt(text, pat, from) then [(from, from + |pat|)] + FindAll(text, pat, from + |pat|)
    else FindAll(text, pat, from + 1)
  }

  /** Each span is a match of `pat` in `text` starting at or after `from`. */
  predicate MatchSpans(text: string, pat: string, from: nat, spans: seq<(nat, nat)>)
  {
    forall k :: 0 <= k < |spans| ==>
      from <= spans[k].0 && spans[k].1 == spans[k].0 + |pat| && MatchesAt(text, pat, spans[k].0)
  }

  /** The spans come in text order and do not overlap. */
  predicate InOrder(spans: seq<(nat, nat)>)
  {
    forall k, k' :: 0 <= k < k' < |spans| ==> spans[k].1 <= spans[k'].0 && spans[k].0 < spans[k'].0
  }

  /** Every span found is a match of the pattern inside the text, at or after `from`. */
  lemma {:induction false} FindAllSound(text: string, pat: string, from: nat)
    ensures MatchSpans(text, pat, from, FindAll(text, pat, from))
    decreases |text| + 1 - from
  {
    if from <= |text| {
      var r := FindAll(text, pat, from);
      if |pat| == 0 || MatchesAt(text, pat, from) {
        var next := if |pat| == 0 then from + 1 else from + |pat|;
        var rest := FindAll(text, pat, next);
        FindAllSound(text, pat, next);
        assert r == [(from, from + |pat|)] + rest;
        forall k | 0 < k < |r| ensures from <= r[k].0 && r[k].1 == r[k].0 + |pat| && MatchesAt(text, pat, r[k].0) {
          assert r[k] == rest[k - 1];
        }
      } else {
        FindAllSound(text, pat, from + 1);
      }
    }
  }

  /** The spans come in text order and do not overlap. */
  lemma {:induction false} FindAllOrdered(text: string, pat: string, from: nat)
    ensures InOrder(FindAll(text, pat, from))
    decreases |text| + 1 - from
  {
    if from <= |text| {
      var r := FindAll(text, pat, from);
      if |pat| == 0 || MatchesAt(text, pat, from) {
        var next := if |pat| == 0 then from + 1 else from + |pat|;
        var rest := FindAll(text, pat, next);
        FindAllOrdered(text, pat, next);
        FindAllSound(text, pat, next);
        assert r == [(from, from + |pat|)] + rest;
        forall k, k' | 0 <= k < k' < |r| ensures r[k].1 <= r[k'].0 && r[k].0 < r[k'].0 {
          assert r[k'] == rest[k' - 1];
          if k > 0 {
            assert r[k] == rest[k - 1];
          }
        }
      } else {
        FindAllOrdered(text, pat, from + 1);
        assert r == FindAll(text, pat, from + 1);
      }
    }
  }

  /** Position `i` lies inside one of the spans. */
  predicate Covered(spans: seq<(nat, nat)>, i: nat)
  {
    exists k :: 0 <= k < |spans| && spans[k].0 <= i < spans[k].1
  }

  /** No match of a non-empty pattern is missed: each lies inside a found span or starts one. */
  lemma {:induction false} FindAllComplete(text: string, pat: string, from: nat, i: nat)
    requires |pat| > 0 && from <= i && MatchesAt(text, pat, i)
    ensures Covered(FindAll(text, pat, from), i)
    decreases |text| + 1 - from
  {
    var r := FindAll(text, pat, from);
    assert from <= |text|;
    if MatchesAt(text, pat, from) {
      var rest := FindAll(text, pat, from + |pat|);
      assert r == [(from, from + |pat|)] + rest;
      if i >= from + |pat| {
        FindAllComplete(text, pat, from + |pat|, i);
        var k :| 0 <= k < |rest| && rest[k].0 <= i < rest[k].1;
        assert r[k + 1] == rest[k];
      } else {
        assert r[0] == (from, from + |pat|);
        assert r[0].0 <= i < r[0].1;
      }
    } else {
      assert from != i;
      var rest := FindAll(text, pat, from + 1);
      assert r == rest;
      FindAllComplete(text, pat, from + 1, i);
      var k :| 0 <= k < |rest| && rest[k].0 <= i < rest[k].1;
      assert r[k] == rest[k];
    }
  }

  /** The span of `re.search`: the leftmost match. */
  function SearchFirst(text: string, pat: string): Option<(nat, nat)>
  {
    var r := FindAll(text, pat, 0);
    if r == [] then None else Some(r[0])
  }

  // ---------------------------------------------------------------------
  // Locating identifiers

  /** A record of the PII list: a person (the record has `abbreviations`) or a code identifier. */
  datatype PiiRecord =
    | PersonRecord(uuid: Option<string>, fullName: Option<string>, abbreviations: seq<string>, aliases: seq<string>)
    | CodeRecord(uuid: Option<string>, identifier: Option<string>, context: Option<string>)

  /** A located PII: the record's uuid and the span `[start, end)` in the normalised text. */
  datatype Hit = Hit(uuid: Option<string>, start: nat, end: nat)

  /**
   * The regular-expression parts of the context search: `re.findall(r'\w+', ctx)`
   * and the search of the flexible pattern built from the tokens.
   */
  datatype ContextMatcher = ContextMatcher(
    wordTokens: string -> seq<string>,
    flexibleSearch: (seq<string>, string) -> Option<(nat, nat)>)

  /** What the regular-expression engine guarantees: no tokens in an empty string, spans inside the text. */
  ghost predicate SoundMatcher(m: ContextMatcher)
  {
    && m.wordTokens("") == []
    && forall tokens, text :: m.flexibleSearch(tokens, text).Some? ==>
         m.flexibleSearch(tokens, text).value.0 <= m.flexibleSearch(tokens, text).value.1 <= |text|
  }

  /** Python's `s[a:b]` for non-negative bounds. */
  function Slice(s: string, a: nat, b: nat): (r: string)
    ensures a <= b <= |s| ==> r == s[a..b]
  {
    var lo := if a <= |s| then a else |s|;
    var hi := if b <= |s| then b else |s|;
    if lo <= hi then s[lo..hi] else []
  }

  /** Aliases that only say "the applicant" name nobody. */
  predicate GenericAlias(alias: string)
  {
    Lower(alias) == "applicant" || Lower(alias) == "the applicant"
  }

  function NonEmpty(names: seq<string>): (r: seq<string>)
    ensures forall x :: x in r <==> x in names && x != ""
  {
    if names == [] then []
    else (if names[0] == "" then [] else [names[0]]) + NonEmpty(names[1..])
  }

  function NamingAliases(aliases: seq<string>): (r: seq<string>)
    ensures forall x :: x in r <==> x in aliases && x != "" && !GenericAlias(x)
  {
    if aliases == [] then []
    else (if aliases[0] == "" || GenericAlias(aliases[0]) then [] else [aliases[0]]) + NamingAliases(aliases[1..])
  }

  /** The names searched for a person: the full name, the abbreviations and the aliases that are given. */
  function NamePatterns(fullName: Option<string>, abbreviations: seq<string>, aliases: seq<string>): seq<string>
  {
    (if fullName.Some? && fullName.value != "" then [fullName.value] else [])
      + NonEmpty(abbreviations) + NamingAliases(aliases)
  }

  /** A name is searched exactly when it is a given full name, abbreviation or naming alias. */
  lemma NamePatternsMembers(fullName: Option<string>, abbreviations: seq<string>, aliases: seq<string>, p: string)
    ensures p in NamePatterns(fullName, abbreviations, aliases) <==>
              || (fullName == Some(p) && p != "")
              || (p in abbreviations && p != "")
              || (p in aliases && p != "" && !GenericAlias(p))
  {
  }

  /** The spans of `pat`, offset by `offset`, as hits for `uuid`. */
  function SpansAsHits(uuid: Option<string>, spans: seq<(nat, nat)>, offset: nat): (r: seq<Hit>)
    ensures |r| == |spans|
    ensures forall k :: 0 <= k < |spans| ==> r[k] == Hit(uuid, offset + spans[k].0, offset + spans[k].1)
  {
    seq(|spans|, k requires 0 <= k < |spans| => Hit(uuid, offset + spans[k].0, offset + spans[k].1))
  }

  /** The matches of each name in turn. */
  function NameHits(uuid: Option<string>, patterns: seq<string>, text: string): seq<Hit>
    decreases |patterns|
  {
    if patterns == [] then []
    else SpansAsHits(uuid, FindAll(text, patterns[0], 0), 0) + NameHits(uuid, patterns[1..], text)
  }

  /** A match inside the window `text[cs..ce]` is a match in the text, shifted by `cs`. */
  lemma WindowMatch(text: string, pat: string, cs: nat, ce: nat, j: nat)
    requires cs <= ce <= |text|
    requires MatchesAt(text[cs..ce], pat, j)
    ensures MatchesAt(text, pat, cs + j) && cs + j + |pat| <= ce
  {
    var window := text[cs..ce];
    forall k | 0 <= k < |pat| ensures LowerChar(text[cs + j + k]) == LowerChar(pat[k]) {
      assert window[j + k] == text[cs + j + k];
    }
  }

  /** A hit built from spans comes from one of them. */
  lemma SpanOfHit(uuid: Option<string>, spans: seq<(nat, nat)>, offset: nat, h: Hit) returns (k: nat)
    requires h in SpansAsHits(uuid, spans, offset)
    ensures k < |spans| && h == Hit(uuid, offset + spans[k].0, offset + spans[k].1)
  {
    var hits := SpansAsHits(uuid, spans, offset);
    var i :| 0 <= i < |hits| && hits[i] == h;
    k := i;
  }

  /** A hit built from a match in the window `text[cs..ce]` is a match in the text, inside the window. */
  lemma WindowHitSound(uuid: Option<string>, text: string, pat: string, cs: nat, ce: nat, h: Hit)
    requires cs <= ce <= |text|
    requires h in SpansAsHits(uuid, FindAll(text[cs..ce], pat, 0), cs)
    ensures h.uuid == uuid && h.end == h.start + |pat| && MatchesAt(text, pat, h.start)
    ensures cs <= h.start && h.end <= ce
  {
    var window := text[cs..ce];
    var spans := FindAll(window, pat, 0);
    var k := SpanOfHit(uuid, spans, cs, h);
    FindAllSound(window, pat, 0);
    WindowMatch(text, pat, cs, ce, spans[k].0);
  }

  /** A hit built from a match in the whole text is a match of the pattern. */
  lemma TextHitSound(uuid: Option<string>, text: string, pat: string, h: Hit)
    requires h in SpansAsHits(uuid, FindAll(text, pat, 0), 0)
    ensures h.uuid == uuid && h.end == h.start + |pat| && MatchesAt(text, pat, h.start)
  {
    assert text[0..|text|] == text;
    WindowHitSound(uuid, text, pat, 0, |text|, h);
  }

  /** Every match of a non-empty pattern in the text lies inside one of its hits. */
  lemma TextHitsComplete(uuid: Option<string>, text: string, pat: string, i: nat)
    requires |pat| > 0 && MatchesAt(text, pat, i)
    ensures exists h :: h in SpansAsHits(uuid, FindAll(text, pat, 0), 0) && h.start <= i < h.end
  {
    var spans := FindAll(text, pat, 0);
    FindAllComplete(text, pat, 0, i);
    var k :| 0 <= k < |spans| && spans[k].0 <= i < spans[k].1;
    assert SpansAsHits(uuid, spans, 0)[k] in SpansAsHits(uuid, spans, 0);
  }

  /** Every span of a person is a match of one of its names. */
  lemma {:induction false} NameHitsSound(uuid: Option<string>, patterns: seq<string>, text: string, h: Hit)
    requires h in NameHits(uuid, patterns, text)
    ensures h.uuid == uuid && exists p :: p in patterns && h.end == h.start + |p| && MatchesAt(text, p, h.start)
    decreases |patterns|
  {
    var here := SpansAsHits(uuid, FindAll(text, patterns[0], 0), 0);
    var rest := NameHits(uuid, patterns[1..], text);
    assert NameHits(uuid, patterns, text) == here + rest;
    if h in here {
      TextHitSound(uuid, text, patterns[0], h);
      assert patterns[0] in patterns;
    } else {
      NameHitsSound(uuid, patterns[1..], text, h);
      var p :| p in patterns[1..] && h.end == h.start + |p| && MatchesAt(text, p, h.start);
      assert p in patterns;
    }
  }

  /** No match of any of a person's (non-empty) names is missed. */
  lemma {:induction false} NameHitsComplete(uuid: Option<string>, patterns: seq<string>, text: string, p: string, i: nat)
    requires p in patterns && p != "" && MatchesAt(text, p, i)
    ensures exists h :: h in NameHits(uuid, patterns, text) && h.start <= i < h.end
    decreases |patterns|
  {
    var here := SpansAsHits(uuid, FindAll(text, patterns[0], 0), 0);
    var rest := NameHits(uuid, patterns[1..], text);
    assert NameHits(uuid, patterns, text) == here + rest;
    if p == patterns[0] {
      TextHitsComplete(uuid, text, p, i);
      var h :| h in here && h.start <= i < h.end;
      assert h in NameHits(uuid, patterns, text);
    } else {
      assert p in patterns[1..];
      NameHitsComplete(uuid, patterns[1..], text, p, i);
      var h :| h in rest && h.start <= i < h.end;
      assert h in NameHits(uuid, patterns, text);
    }
  }

  /**
   * A person's hits carry its uuid and are matches of its full name, an
   * abbreviation or a naming alias; every match of those is found.
   */
  lemma PersonHitsSpec(m: ContextMatcher, uuid: Option<string>, fullName: Option<string>,
                       abbreviations: seq<string>, aliases: seq<string>, text: string)
    ensures var pats := NamePatterns(fullName, abbreviations, aliases);
            var hits := RecordHits(m, PersonRecord(uuid, fullName, abbreviations, aliases), text);
            && (forall h :: h in hits ==>
                  h.uuid == uuid && exists p :: p in pats && h.end == h.start + |p| && MatchesAt(text, p, h.start))
            && (forall p, i: nat :: p in pats && MatchesAt(text, p, i) ==> exists h :: h in hits && h.start <= i < h.end)
  {
    var pats := NamePatterns(fullName, abbreviations, aliases);
    forall h | h in NameHits(uuid, pats, text)
      ensures h.uuid == uuid && exists p :: p in pats && h.end == h.start + |p| && MatchesAt(text, p, h.start)
    {
      NameHitsSound(uuid, pats, text, h);
    }
    forall p, i: nat | p in pats && MatchesAt(text, p, i)
      ensures exists h :: h in NameHits(uuid, pats, text) && h.start <= i < h.end
    {
      NamePatternsMembers(fullName, abbreviations, aliases, p);
      NameHitsComplete(uuid, pats, text, p, i);
    }
  }

  /**
   * The span of the context as the code finds it: the flexible pattern of
   * the context's words, or, when it has none, the context itself.
   */
  function ContextSpanAsWritten(m: ContextMatcher, context: string, text: string): Option<(nat, nat)>
  {
    var ctx := ReplaceCharacters(context);
    var tokens := m.wordTokens(ctx);
    if tokens == [] then SearchFirst(text, ctx) else m.flexibleSearch(tokens, text)
  }

  /** The context span with a missing or empty context counted as not found. */
  function ContextSpan(m: ContextMatcher, context: string, text: string): (r: Option<(nat, nat)>)
    ensures ReplaceCharacters(context) == "" ==> r.None?
    ensures ReplaceCharacters(context) != "" ==> r == ContextSpanAsWritten(m, context, text)
  {
    if ReplaceCharacters(context) == "" then None else ContextSpanAsWritten(m, context, text)
  }

  /** The identifier searched for a code record: stripped, then normalised. */
  function IdentifierPattern(identifier: Option<string>): string
  {
    ReplaceCharacters(Strip(if identifier.Some? then identifier.value else ""))
  }

  /** The hits of a code record, given where its context was found. */
  function CodeHitsIn(uuid: Option<string>, identifier: Option<string>, span: Option<(nat, nat)>, text: string): seq<Hit>
  {
    if Strip(if identifier.Some? then identifier.value else "") == "" then []
    else
      var pat := IdentifierPattern(identifier);
      match span
      case Some((cs, ce)) => SpansAsHits(uuid, FindAll(Slice(text, cs, ce), pat, 0), cs)
      case None => SpansAsHits(uuid, FindAll(text, pat, 0), 0)
  }

  function ContextOf(context: Option<string>): string
  {
    if context.Some? then context.value else ""
  }

  /** A record's hits as `locate_identifiers` collects them. */
  function RecordHitsAsWritten(m: ContextMatcher, rec: PiiRecord, text: string): seq<Hit>
  {
    match rec
    case PersonRecord(uuid, fullName, abbreviations, aliases) =>
      NameHits(uuid, NamePatterns(fullName, abbreviations, aliases), text)
    case CodeRecord(uuid, identifier, context) =>
      CodeHitsIn(uuid, identifier, ContextSpanAsWritten(m, ContextOf(context), text), text)
  }

  /** A record's hits with an empty context searched in the whole text. */
  function RecordHits(m: ContextMatcher, rec: PiiRecord, text: string): seq<Hit>
  {
    match rec
    case PersonRecord(uuid, fullName, abbreviations, aliases) =>
      NameHits(uuid, NamePatterns(fullName, abbreviations, aliases), text)
    case CodeRecord(uuid, identifier, context) =>
      CodeHitsIn(uuid, identifier, ContextSpan(m, ContextOf(context), text), text)
  }

  /** The two agree on every person and on every code record with a non-empty context. */
  lemma RecordHitsAgree(m: ContextMatcher, rec: PiiRecord, text: string)
    requires rec.PersonRecord? || ReplaceCharacters(ContextOf(rec.context)) != ""
    ensures RecordHits(m, rec, text) == RecordHitsAsWritten(m, rec, text)
  {
  }

  /** As written, a code record without a context never finds its (non-empty) identifier. */
  lemma EmptyContextFindsNothing(m: ContextMatcher, uuid: Option<string>, identifier: Option<string>, context: Option<string>, text: string)
    requires SoundMatcher(m)
    requires ReplaceCharacters(ContextOf(context)) == "" && IdentifierPattern(identifier) != ""
    ensures RecordHitsAsWritten(m, CodeRecord(uuid, identifier, context), text) == []
  {
    var ctx := ReplaceCharacters(ContextOf(context));
    assert FindAll(text, ctx, 0)[0] == (0, 0);
    assert ContextSpanAsWritten(m, ContextOf(context), text) == Some((0, 0));
    assert Slice(text, 0, 0) == [];
    assert FindAll([], IdentifierPattern(identifier), 0) == [];
  }

  /** The input that shows it: identifier "X1" with no context, in the text "X1". */
  lemma EmptyContextExample(m: ContextMatcher)
    requires SoundMatcher(m)
    ensures RecordHitsAsWritten(m, CodeRecord(Some("u"), Some("X1"), None), "X1") == []
    ensures RecordHits(m, CodeRecord(Some("u"), Some("X1"), None), "X1") == [Hit(Some("u"), 0, 2)]
  {
    ExampleStrings();
    EmptyContextFindsNothing(m, Some("u"), Some("X1"), None, "X1");
    EmptyContextExampleFound(m);
  }

  /** The identifier of the example is kept by normalisation and matches the whole text once. */
  lemma ExampleStrings()
    ensures ReplaceCharacters("") == "" && Strip("X1") == "X1" && ReplaceCharacters("X1") == "X1"
    ensures FindAll("X1", "X1", 0) == [(0, 2)]
  {
    assert ReplaceCharacters("") == "";
    assert Strip("X1") == "X1";
    ReplaceCharactersKeepsNormalized("X1");
    ExampleMatch();
  }

  lemma ExampleMatch()
    ensures FindAll("X1", "X1", 0) == [(0, 2)]
  {
    assert MatchesAt("X1", "X1", 0);
    assert FindAll("X1", "X1", 2) == [];
  }

  /** Searched in the whole text, the example's identifier is found. */
  lemma EmptyContextExampleFound(m: ContextMatcher)
    requires SoundMatcher(m)
    ensures RecordHits(m, CodeRecord(Some("u"), Some("X1"), None), "X1") == [Hit(Some("u"), 0, 2)]
  {
    ExampleStrings();
  }

  /** A code record with a blank identifier contributes nothing. */
  lemma CodeHitsBlank(m: ContextMatcher, uuid: Option<string>, identifier: Option<string>, context: Option<string>, text: string)
    requires Strip(if identifier.Some? then identifier.value else "") == ""
    ensures RecordHits(m, CodeRecord(uuid, identifier, context), text) == []
  {
  }

  /**
   * With a context span inside the text, each hit is a match of the
   * identifier pattern lying inside the span.
   */
  lemma CodeHitsInWindow(uuid: Option<string>, identifier: Option<string>, cs: nat, ce: nat, text: string)
    requires cs <= ce <= |text|
    ensures var pat := IdentifierPattern(identifier);
            forall h :: h in CodeHitsIn(uuid, identifier, Some((cs, ce)), text) ==>
              && h.uuid == uuid && h.end == h.start + |pat| && MatchesAt(text, pat, h.start)
              && cs <= h.start && h.end <= ce
  {
    var pat := IdentifierPattern(identifier);
    assert Slice(text, cs, ce) == text[cs..ce];
    forall h | h in CodeHitsIn(uuid, identifier, Some((cs, ce)), text)
      ensures h.uuid == uuid && h.end == h.start + |pat| && MatchesAt(text, pat, h.start)
      ensures cs <= h.start && h.end <= ce
    {
      WindowHitSound(uuid, text, pat, cs, ce, h);
    }
  }

  /** Without a context span the whole text is searched: hits are exactly the matches of the pattern. */
  lemma CodeHitsInText(uuid: Option<string>, identifier: Option<string>, text: string)
    ensures var pat := IdentifierPattern(identifier);
            var hits := CodeHitsIn(uuid, identifier, None, text);
            && (forall h :: h in hits ==> h.uuid == uuid && h.end == h.start + |pat| && MatchesAt(text, pat, h.start))
            && (pat != "" && Strip(if identifier.Some? then identifier.value else "") != "" ==>
                  forall i: nat :: MatchesAt(text, pat, i) ==> exists h :: h in hits && h.start <= i < h.end)
  {
    var pat := IdentifierPattern(identifier);
    var hits := CodeHitsIn(uuid, identifier, None, text);
    forall h | h in hits
      ensures h.uuid == uuid && h.end == h.start + |pat| && MatchesAt(text, pat, h.start)
    {
      TextHitSound(uuid, text, pat, h);
    }
    if pat != "" && Strip(if identifier.Some? then identifier.value else "") != "" {
      forall i: nat | MatchesAt(text, pat, i) ensures exists h :: h in hits && h.start <= i < h.end {
        TextHitsComplete(uuid, text, pat, i);
      }
    }
  }

  /** A found context span lies inside the text. */
  lemma ContextSpanSound(m: ContextMatcher, context: string, text: string)
    requires SoundMatcher(m)
    ensures var span := ContextSpan(m, context, text);
            span.Some? ==> span.value.0 <= span.value.1 <= |text|
  {
    var ctx := ReplaceCharacters(context);
    if ctx != "" {
      var tokens := m.wordTokens(ctx);
      if tokens == [] {
        FindAllSound(text, ctx, 0);
        var r := FindAll(text, ctx, 0);
        if r != [] {
          assert MatchesAt(text, ctx, r[0].0);
        }
      } else {
        var found := m.flexibleSearch(tokens, text);
        assert found.Some? ==> found.value.0 <= found.value.1 <= |text|;
      }
    }
  }

  /**
   * Each hit of a code record is a match of its normalised identifier,
   * inside the context's span when the context was found; without a found
   * context no match in the text is missed.
   */
  lemma CodeHitsSpec(m: ContextMatcher, uuid: Option<string>, identifier: Option<string>, context: Option<string>, text: string)
    requires SoundMatcher(m)
    ensures var hits := RecordHits(m, CodeRecord(uuid, identifier, context), text);
            var pat := IdentifierPattern(identifier);
            var span := ContextSpan(m, ContextOf(context), text);
            && (forall h :: h in hits ==> h.uuid == uuid && h.end == h.start + |pat| && MatchesAt(text, pat, h.start))
            && (span.Some? ==> forall h :: h in hits ==> span.value.0 <= h.start && h.end <= span.value.1)
  {
    var span := ContextSpan(m, ContextOf(context), text);
    ContextSpanSound(m, ContextOf(context), text);
    match span
    case Some((cs, ce)) => CodeHitsInWindow(uuid, identifier, cs, ce, text);
    case None => CodeHitsInText(uuid, identifier, text);
  }

  /** The hits of one record, as a function of the record. */
  function HitsOf(m: ContextMatcher, text: string): PiiRecord -> seq<Hit>
  {
    record => RecordHits(m, record, text)
  }

  /** The hits of the records in order. */
  function AllHits(m: ContextMatcher, records: seq<PiiRecord>, text: string): seq<Hit>
  {
    Flatten(records, HitsOf(m, text))
  }

  /** A hit belongs to the collected list exactly when one of the records produced it. */
  lemma AllHitsMembers(m: ContextMatcher, records: seq<PiiRecord>, text: string, h: Hit)
    ensures h in AllHits(m, records, text) <==> exists i :: 0 <= i < |records| && h in RecordHits(m, records[i], text)
  {
    FlattenMembers(records, HitsOf(m, text), h);
    assert forall i :: 0 <= i < |records| ==> HitsOf(m, text)(records[i]) == RecordHits(m, records[i], text);
  }

  /** `{r["uuid"]: [r["start"], r["end"]]}` for each hit. */
  function PositionList(hits: seq<Hit>): (r: seq<(Option<string>, (nat, nat))>)
    ensures |r| == |hits|
    ensures forall k :: 0 <= k < |hits| ==> r[k] == (hits[k].uuid, (hits[k].start, hits[k].end))
  {
    seq(|hits|, k requires 0 <= k < |hits| => (hits[k].uuid, (hits[k].start, hits[k].end)))
  }

  lemma PositionListSnoc(hits: seq<Hit>, i: nat)
    requires i < |hits|
    ensures PositionList(hits[..i + 1]) == PositionList(hits[..i]) + [(hits[i].uuid, (hits[i].start, hits[i].end))]
  {
    var a := PositionList(hits[..i + 1]);
    var b := PositionList(hits[..i]) + [(hits[i].uuid, (hits[i].start, hits[i].end))];
    forall k | 0 <= k < |a|
      ensures a[k] == b[k]
    {
      assert hits[..i + 1][k] == hits[k];
    }
  }

  /**
   * `locate_identifiers`: the text is normalised, each record's hits are
   * collected in order, and the positions are returned under the document id.
   */
  method LocateIdentifiers(m: ContextMatcher, piiJson: seq<PiiRecord>, originalText: string, docId: string)
    returns (r: (string, seq<(Option<string>, (nat, nat))>))
    ensures r.0 == docId
    ensures r.1 == PositionList(AllHits(m, piiJson, NormalizedSource(originalText)))
  {
    var text := NormalizedSource(originalText);
    var results: seq<Hit> := [];
    for i := 0 to |piiJson|
      invariant results == AllHits(m, piiJson[..i], text)
    {
      FlattenSnoc(piiJson, HitsOf(m, text), i);
      results := results + HitsOf(m, text)(piiJson[i]);
    }
    FlattenWhole(piiJson, HitsOf(m, text));
    var positionList: seq<(Option<string>, (nat, nat))> := [];
    for i := 0 to |results|
      invariant positionList == PositionList(results[..i])
    {
      PositionListSnoc(results, i);
      positionList := positionList + [(results[i].uuid, (results[i].start, results[i].end))];
    }
    TakeTake(results, |results|, |results|);
    r := (docId, positionList);
  }

  // ---------------------------------------------------------------------
  // Combining the documents' position dicts

  /** `final_dict | position_dict` folded over the list: later dicts win on a shared key. */
  function Combined<V>(dicts: seq<Dict<V>>): Dict<V>
    decreases |dicts|
  {
    if dicts == [] then [] else Update(Combined(dicts[..|dicts| - 1]), dicts[|dicts| - 1])
  }

  /** `combine`: the dicts are merged in order. */
  method Combine<V>(dicts: seq<Dict<V>>) returns (finalDict: Dict<V>)
    ensures finalDict == Combined(dicts)
  {
    finalDict := [];
    var i := 0;
    while i < |dicts|
      invariant 0 <= i <= |dicts|
      invariant finalDict == Combined(dicts[..i])
    {
      assert dicts[..i + 1][..i] == dicts[..i];
      finalDict := Update(finalDict, dicts[i]);
      i := i + 1;
    }
    assert dicts[..i] == dicts;
  }

  /** The combined dict is a proper dict, and its keys are the union of the keys of the dicts. */
  lemma {:induction false} CombinedKeys<V>(dicts: seq<Dict<V>>, k: string)
    ensures Wf(Combined(dicts))
    ensures HasKey(Combined(dicts), k) <==> exists i :: 0 <= i < |dicts| && HasKey(dicts[i], k)
    decreases |dicts|
  {
    if dicts != [] {
      var n := |dicts| - 1;
      var init := dicts[..n];
      CombinedKeys(init, k);
      UpdateWf(Combined(init), dicts[n]);
      UpdateHasKey(Combined(init), dicts[n], k);
      if exists i :: 0 <= i < |dicts| && HasKey(dicts[i], k) {
        var i :| 0 <= i < |dicts| && HasKey(dicts[i], k);
        if i < n {
          assert init[i] == dicts[i];
        }
      }
      if exists i :: 0 <= i < |init| && HasKey(init[i], k) {
        var i :| 0 <= i < |init| && HasKey(init[i], k);
        assert dicts[i] == init[i];
      }
    }
  }

  /** The combined dict is a proper dict. */
  lemma {:induction false} CombinedWf<V>(dicts: seq<Dict<V>>)
    ensures Wf(Combined(dicts))
    decreases |dicts|
  {
    if dicts != [] {
      CombinedWf(dicts[..|dicts| - 1]);
      UpdateWf(Combined(dicts[..|dicts| - 1]), dicts[|dicts| - 1]);
    }
  }

  /** A key holds its value from the last dict that has it. */
  lemma {:induction false} CombinedGet<V>(dicts: seq<Dict<V>>, k: string, j: nat)
    requires forall i :: 0 <= i < |dicts| ==> Wf(dicts[i])
    requires j < |dicts| && HasKey(dicts[j], k)
    requires forall i :: j < i < |dicts| ==> !HasKey(dicts[i], k)
    ensures Get(Combined(dicts), k) == Get(dicts[j], k)
    decreases |dicts|
  {
    var n := |dicts| - 1;
    var init := dicts[..n];
    var last := dicts[n];
    CombinedLast(dicts, k);
    if j < n {
      assert !HasKey(last, k);
      assert init[j] == dicts[j];
      assert forall i :: 0 <= i < |init| ==> init[i] == dicts[i];
      CombinedGet(init, k, j);
    }
  }

  /** One step of the fold: the last dict wins on its own keys. */
  lemma CombinedLast<V>(dicts: seq<Dict<V>>, k: string)
    requires dicts != [] && Wf(dicts[|dicts| - 1])
    ensures Get(Combined(dicts), k) ==
            if HasKey(dicts[|dicts| - 1], k) then Get(dicts[|dicts| - 1], k) else Get(Combined(dicts[..|dicts| - 1]), k)
  {
    CombinedWf(dicts[..|dicts| - 1]);
    UpdateGet(Combined(dicts[..|dicts| - 1]), dicts[|dicts| - 1], k);
  }

  // ---------------------------------------------------------------------
  // De-duplicating a document's positions

  /** A position `[left, right]`. */
  type Position = (int, int)

  /** Index of the entry for `right` in the `best_left_for_right` dict, kept as `(right, left)` items. */
  function RightIndex(best: seq<(int, int)>, right: int): (r: Option<nat>)
    ensures r.Some? ==> r.value < |best| && best[r.value].0 == right
    ensures r.None? ==> forall i :: 0 <= i < |best| ==> best[i].0 != right
    decreases |best|
  {
    if best == [] then None
    else if best[0].0 == right then Some(0)
    else match RightIndex(best[1..], right)
         case None => None
         case Some(i) => Some(i + 1)
  }

  /** One loop step: `right` gets `left` when it is new or `left` is smaller than its best so far. */
  function Offer(best: seq<(int, int)>, p: Position): seq<(int, int)>
  {
    match RightIndex(best, p.1)
    case Some(i) => if p.0 < best[i].1 then best[i := (p.1, p.0)] else best
    case None => best + [(p.1, p.0)]
  }

  /** `best_left_for_right` after the positions, as its `(right, left)` items in insertion order. */
  function BestLefts(positions: seq<Position>): seq<(int, int)>
    decreases |positions|
  {
    if positions == [] then [] else Offer(BestLefts(positions[..|positions| - 1]), positions[|positions| - 1])
  }

  /** Each right endpoint has at most one entry in the best-left table. */
  predicate DistinctRights(best: seq<(int, int)>)
  {
    forall i, j :: 0 <= i < j < |best| ==> best[i].0 != best[j].0
  }

  lemma OfferDistinct(best: seq<(int, int)>, p: Position)
    requires DistinctRights(best)
    ensures DistinctRights(Offer(best, p))
  {
  }

  /** The best-left table never holds the same right endpoint twice. */
  lemma {:induction false} BestLeftsDistinct(positions: seq<Position>)
    ensures DistinctRights(BestLefts(positions))
    decreases |positions|
  {
    if positions != [] {
      BestLeftsDistinct(positions[..|positions| - 1]);
      OfferDistinct(BestLefts(positions[..|positions| - 1]), positions[|positions| - 1]);
    }
  }

  /** Every entry of the table is one of the positions, swapped. */
  lemma {:induction false} BestLeftsFromPositions(positions: seq<Position>)
    ensures forall i :: 0 <= i < |BestLefts(positions)| ==>
              (BestLefts(positions)[i].1, BestLefts(positions)[i].0) in positions
    decreases |positions|
  {
    if positions != [] {
      var n := |positions| - 1;
      var init := positions[..n];
      var p := positions[n];
      BestLeftsFromPositions(init);
      assert forall q :: q in init ==> q in positions;
      var b := BestLefts(init);
      match RightIndex(b, p.1)
      case Some(k) =>
        if p.0 < b[k].1 {
          assert forall i :: 0 <= i < |b| && i != k ==> b[k := (p.1, p.0)][i] == b[i];
        }
      case None =>
    }
  }

  /** What one step does to the table: entries keep their rights, lefts only decrease, `p` may be added at the end. */
  lemma OfferShape(b: seq<(int, int)>, p: Position)
    requires DistinctRights(b)
    ensures var b' := Offer(b, p);
            && |b| <= |b'| <= |b| + 1
            && (forall i :: 0 <= i < |b| ==> b'[i].0 == b[i].0 && b'[i].1 <= b[i].1)
            && (forall i :: 0 <= i < |b| ==> b'[i] == b[i] || b'[i] == (p.1, p.0))
            && (|b'| == |b| + 1 ==> b'[|b|] == (p.1, p.0) && RightIndex(b, p.1).None?)
            && RightIndex(b', p.1).Some? && b'[RightIndex(b', p.1).value].1 <= p.0
  {
    var b' := Offer(b, p);
    OfferDistinct(b, p);
    match RightIndex(b, p.1)
    case Some(k) =>
      RightIndexUnique(b', k);
    case None =>
      assert RightIndex(b', p.1).Some? by {
        assert b'[|b|].0 == p.1;
      }
  }

  /** In a table with distinct rights, the entry for a right is the one `RightIndex` finds. */
  lemma RightIndexUnique(b: seq<(int, int)>, i: nat)
    requires DistinctRights(b) && i < |b|
    ensures RightIndex(b, b[i].0) == Some(i)
  {
    var r := RightIndex(b, b[i].0);
  }

  /** Every right endpoint of the positions has an entry in the table. */
  lemma {:induction false} BestLeftsCovers(positions: seq<Position>)
    ensures forall q :: q in positions ==>
              RightIndex(BestLefts(positions), q.1).Some?
    decreases |positions|
  {
    if positions != [] {
      var n := |positions| - 1;
      var init := positions[..n];
      var p := positions[n];
      BestLeftsCovers(init);
      BestLeftsDistinct(init);
      var b := BestLefts(init);
      var b' := BestLefts(positions);
      assert b' == Offer(b, p);
      OfferShape(b, p);
      forall q | q in positions
        ensures RightIndex(b', q.1).Some?
      {
        if q != p {
          assert q in init by {
            var m :| 0 <= m < |positions| && positions[m] == q;
            assert m < n && init[m] == q;
          }
          var i := RightIndex(b, q.1).value;
          assert b'[i].0 == q.1;
        }
      }
    }
  }

  /** Each kept left is no larger than any left with the same right endpoint. */
  lemma {:induction false} BestLeftsMinimal(positions: seq<Position>)
    ensures forall i, q :: 0 <= i < |BestLefts(positions)| && q in positions && q.1 == BestLefts(positions)[i].0 ==>
              BestLefts(positions)[i].1 <= q.0
    decreases |positions|
  {
    if positions != [] {
      var n := |positions| - 1;
      var init := positions[..n];
      BestLeftsMinimal(init);
      BestLeftsDistinct(init);
      BestLeftsCovers(init);
      assert positions == init + [positions[n]];
      OfferKeepsMinimal(BestLefts(init), positions[n], init);
    }
  }

  /** One offer keeps every kept left minimal, given a table that already covers the earlier positions. */
  lemma OfferKeepsMinimal(b: seq<(int, int)>, p: Position, init: seq<Position>)
    requires DistinctRights(b)
    requires forall i, q :: 0 <= i < |b| && q in init && q.1 == b[i].0 ==> b[i].1 <= q.0
    requires forall q :: q in init ==> RightIndex(b, q.1).Some?
    ensures var b' := Offer(b, p);
            forall i, q :: 0 <= i < |b'| && q in init + [p] && q.1 == b'[i].0 ==> b'[i].1 <= q.0
  {
    var b' := Offer(b, p);
    OfferShape(b, p);
    OfferDistinct(b, p);
    forall i, q | 0 <= i < |b'| && q in init + [p] && q.1 == b'[i].0
      ensures b'[i].1 <= q.0
    {
      if q == p {
        RightIndexUnique(b', i);
      } else {
        assert q in init;
        if i == |b| {
          assert false;
        }
      }
    }
  }

  /** The table seen as a set of `(right, left)`: one entry per right, each minimal. */
  lemma BestLeftsTable(positions: seq<Position>)
    ensures var best := BestLefts(positions);
            && DistinctRights(best)
            && (forall i :: 0 <= i < |best| ==> (best[i].1, best[i].0) in positions)
            && (forall q :: q in positions ==> exists i :: 0 <= i < |best| && best[i].0 == q.1)
            && (forall i, q :: 0 <= i < |best| && q in positions && q.1 == best[i].0 ==> best[i].1 <= q.0)
  {
    BestLeftsDistinct(positions);
    BestLeftsFromPositions(positions);
    BestLeftsCovers(positions);
    BestLeftsMinimal(positions);
    var best := BestLefts(positions);
    forall q | q in positions ensures exists i :: 0 <= i < |best| && best[i].0 == q.1 {
      var i := RightIndex(best, q.1).value;
    }
  }

  /** `[[left, right] for right, left in best_left_for_right.items()]`. */
  function Swapped(best: seq<(int, int)>): (r: seq<Position>)
    ensures |r| == |best|
    ensures forall i :: 0 <= i < |best| ==> r[i] == (best[i].1, best[i].0)
  {
    seq(|best|, i requires 0 <= i < |best| => (best[i].1, best[i].0))
  }

  /** The sort key `(x[1], x[0])`: by right, then by left. */
  predicate PositionLe(a: Position, b: Position)
  {
    a.1 < b.1 || (a.1 == b.1 && a.0 <= b.0)
  }

  predicate SortedPositions(s: seq<Position>)
  {
    forall i, j :: 0 <= i < j < |s| ==> PositionLe(s[i], s[j])
  }

  function InsertPosition(x: Position, s: seq<Position>): (r: seq<Position>)
    requires SortedPositions(s)
    ensures SortedPositions(r)
    ensures multiset(r) == multiset(s) + multiset{x}
    decreases |s|
  {
    if s == [] then [x]
    else if PositionLe(x, s[0]) then [x] + s
    else
      var rest := InsertPosition(x, s[1..]);
      HeadTail(s);
      InsertBehindHead(x, s, rest);
      [s[0]] + rest
  }

  /** A head no later than the rest of a sorted list and than `x` stays first once `x` is inserted into the rest. */
  lemma InsertBehindHead(x: Position, s: seq<Position>, rest: seq<Position>)
    requires SortedPositions(s) && s != [] && !PositionLe(x, s[0])
    requires SortedPositions(rest) && multiset(rest) == multiset(s[1..]) + multiset{x}
    ensures SortedPositions([s[0]] + rest)
  {
    forall y | y in rest
      ensures PositionLe(s[0], y)
    {
      assert y in multiset(rest);
      if y != x {
        assert y in multiset(s[1..]);
        var j :| 0 <= j < |s[1..]| && s[1..][j] == y;
        assert s[j + 1] == y;
      }
    }
    var r := [s[0]] + rest;
    forall i, j | 0 <= i < j < |r|
      ensures PositionLe(r[i], r[j])
    {
      assert r[j] == rest[j - 1];
      if i > 0 {
        assert r[i] == rest[i - 1];
      } else {
        assert rest[j - 1] in rest;
      }
    }
  }

  /** `list.sort` with the key `(x[1], x[0])`: the positions in ascending order. */
  function SortPositions(s: seq<Position>): (r: seq<Position>)
    ensures SortedPositions(r)
    ensures multiset(r) == multiset(s)
    decreases |s|
  {
    if s == [] then []
    else
      HeadTail(s);
      InsertPosition(s[0], SortPositions(s[1..]))
  }

  /** The positions `merge_overlapping_elements` keeps for one list. */
  function MergedPositions(positions: seq<Position>): seq<Position>
  {
    SortPositions(Swapped(BestLefts(positions)))
  }

  predicate Distinct<T(==)>(s: seq<T>)
  {
    forall i, j :: 0 <= i < j < |s| ==> s[i] != s[j]
  }

  lemma {:induction false} DistinctCount<T>(s: seq<T>, x: T)
    requires Distinct(s)
    ensures multiset(s)[x] <= 1
    decreases |s|
  {
    if s != [] {
      assert s == [s[0]] + s[1..];
      assert Distinct(s[1..]) by {
        forall i, j | 0 <= i < j < |s| - 1 ensures s[1..][i] != s[1..][j] {
          assert s[1..][i] == s[i + 1] && s[1..][j] == s[j + 1];
        }
      }
      DistinctCount(s[1..], x);
      if x == s[0] {
        assert x !in s[1..] by {
          forall k | 0 <= k < |s| - 1 ensures s[1..][k] != x {
            assert s[1..][k] == s[k + 1];
          }
        }
      }
    }
  }

  /** A permutation of a sequence without repetitions has none either. */
  lemma PermutationDistinct<T>(a: seq<T>, b: seq<T>)
    requires multiset(a) == multiset(b) && Distinct(b)
    ensures Distinct(a)
  {
    forall i, j | 0 <= i < j < |a| ensures a[i] != a[j] {
      if a[i] == a[j] {
        assert a == a[..i] + [a[i]] + a[i + 1..j] + [a[j]] + a[j + 1..];
        assert multiset(a)[a[i]] >= 2;
        DistinctCount(b, a[i]);
        assert false;
      }
    }
  }

  /** Distinct rights make the swapped positions distinct. */
  lemma SwappedDistinct(best: seq<(int, int)>)
    requires DistinctRights(best)
    ensures Distinct(Swapped(best))
    ensures forall x, y :: x in Swapped(best) && y in Swapped(best) && x.1 == y.1 ==> x == y
  {
  }

  /** Membership in the merged list is membership in the swapped table. */
  lemma MergedMembers(positions: seq<Position>)
    ensures forall x :: x in MergedPositions(positions) <==> x in Swapped(BestLefts(positions))
  {
    var sw := Swapped(BestLefts(positions));
    var m := SortPositions(sw);
    forall x ensures x in m <==> x in sw {
      assert x in m <==> x in multiset(m);
      assert x in sw <==> x in multiset(sw);
    }
  }

  /** The merged list is strictly increasing in its right endpoints. */
  lemma MergedStrictlyIncreasing(positions: seq<Position>)
    ensures var m := MergedPositions(positions);
            forall i, j :: 0 <= i < j < |m| ==> m[i].1 < m[j].1
  {
    var sw := Swapped(BestLefts(positions));
    var m := SortPositions(sw);
    BestLeftsDistinct(positions);
    SwappedDistinct(BestLefts(positions));
    PermutationDistinct(m, sw);
    MergedMembers(positions);
    forall i, j | 0 <= i < j < |m| ensures m[i].1 < m[j].1 {
      assert m[i] in m && m[j] in m;
      assert PositionLe(m[i], m[j]);
    }
  }

  /** Each merged position is one of the input positions. */
  lemma MergedFromPositions(positions: seq<Position>)
    ensures forall x :: x in MergedPositions(positions) ==> x in positions
  {
    var sw := Swapped(BestLefts(positions));
    MergedMembers(positions);
    BestLeftsFromPositions(positions);
    forall x | x in sw ensures x in positions {
      var i :| 0 <= i < |sw| && sw[i] == x;
    }
  }

  /** Every right endpoint of the input survives in the merged list. */
  lemma MergedCovers(positions: seq<Position>, q: Position)
    requires q in positions
    ensures exists x :: x in MergedPositions(positions) && x.1 == q.1
  {
    var best := BestLefts(positions);
    var sw := Swapped(best);
    MergedMembers(positions);
    BestLeftsCovers(positions);
    var i := RightIndex(best, q.1).value;
    assert sw[i] in sw;
    assert sw[i] in MergedPositions(positions);
  }

  /** Each merged left is the smallest left among the inputs with that right endpoint. */
  lemma MergedMinimal(positions: seq<Position>)
    ensures forall x, q :: x in MergedPositions(positions) && q in positions && x.1 == q.1 ==> x.0 <= q.0
  {
    var sw := Swapped(BestLefts(positions));
    MergedMembers(positions);
    BestLeftsMinimal(positions);
    forall x, q | x in sw && q in positions && x.1 == q.1 ensures x.0 <= q.0 {
      var i :| 0 <= i < |sw| && sw[i] == x;
    }
  }

  /**
   * The merged list has exactly one position per right endpoint, in
   * ascending order of the right endpoint; each is one of the input
   * positions, every input right endpoint survives, and each kept left is
   * the smallest left among the positions with that right endpoint.
   */
  lemma MergedPositionsSpec(positions: seq<Position>)
    ensures var m := MergedPositions(positions);
            && (forall i, j :: 0 <= i < j < |m| ==> m[i].1 < m[j].1)
            && (forall x :: x in m ==> x in positions)
            && (forall q :: q in positions ==> exists x :: x in m && x.1 == q.1)
            && (forall x, q :: x in m && q in positions && x.1 == q.1 ==> x.0 <= q.0)
  {
    MergedStrictlyIncreasing(positions);
    MergedFromPositions(positions);
    MergedMinimal(positions);
    forall q | q in positions ensures exists x :: x in MergedPositions(positions) && x.1 == q.1 {
      MergedCovers(positions, q);
    }
  }

  /**
   * `merge_overlapping_elements`: the positions under the dict's first key
   * are de-duplicated by right endpoint and sorted, under the same key; an
   * empty dict has no first key (`IndexError`).
   */
  method MergeOverlappingElements(positionDict: Dict<seq<Position>>) returns (r: Result<Dict<seq<Position>>>)
    ensures r.Ok? <==> positionDict != []
    ensures r.Err? ==> r.error == IndexError
    ensures r.Ok? ==> r.value == [(positionDict[0].0, MergedPositions(positionDict[0].1))]
  {
    if positionDict == [] {
      return Err(IndexError);
    }
    var key := positionDict[0].0;
    var positionList := Get(positionDict, key).value;
    assert IndexOf(positionDict, key) == Some(0);
    var best: seq<(int, int)> := [];
    var i := 0;
    while i < |positionList|
      invariant 0 <= i <= |positionList|
      invariant best == BestLefts(positionList[..i])
    {
      assert positionList[..i + 1][..i] == positionList[..i];
      var (left, right) := positionList[i];
      var idx := RightIndex(best, right);
      if idx.Some? {
        if left < best[idx.value].1 {
          best := best[idx.value := (right, left)];
        }
      } else {
        best := best + [(right, left)];
      }
      i := i + 1;
    }
    assert positionList[..i] == positionList;
    var merged := Swapped(best);
    merged := SortPositions(merged);
    r := Ok([(key, merged)]);
  }
}
