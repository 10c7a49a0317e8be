// The meta expert's routing decision: the `{"Next": "<word>"}` token it is
// asked to emit, found in free text and decoded.

module NextStep {
  import opened Wrappers
  import opened Text

  /** The text `{"Next":` written with the quote character `q`. */
  function Header(q: char): (r: string)
    ensures |r| == 8 && r[0] == '{' && r[1] == q && r[6] == q && r[7] == ':'
  {
    ['{', q, 'N', 'e', 'x', 't', q, ':']
  }

  /**
   * The pattern `\{QNext Q:\s?Q\w+Q\}` with quote `Q` matches at `i`, the
   * opening quote of the word sits at `k` and its closing quote at `e`; the
   * match is `s[i..e+2]`.
   */
  predicate TokenAt(s: string, q: char, i: nat, k: nat, e: nat)
  {
    && e + 2 <= |s|
    && StartsAt(s, i, Header(q))
    && k + 1 < e
    && (k == i + 8 || (k == i + 9 && IsSpace(s[i + 8])))
    && s[k] == q
    && (forall m :: k < m < e ==> IsWordChar(s[m]))
    && s[e] == q
    && s[e + 1] == '}'
  }

  /** End of the run of word characters starting at `m`. */
  function WordRunEnd(s: string, m: nat): (r: nat)
    requires m <= |s|
    ensures m <= r <= |s|
    ensures forall j :: m <= j < r ==> IsWordChar(s[j])
    ensures r < |s| ==> !IsWordChar(s[r])
    decreases |s| - m
  {
    if m < |s| && IsWordChar(s[m]) then WordRunEnd(s, m + 1) else m
  }

  /** The match at `i`, if any; the regex has no real choice to make, so it is unique. */
  function MatchAt(s: string, q: char, i: nat): (r: Option<(nat, nat)>)
    requires !IsWordChar(q) && !IsSpace(q)
    ensures r.Some? ==> TokenAt(s, q, i, r.value.0, r.value.1)
    ensures r.None? ==> forall k: nat, e: nat :: !TokenAt(s, q, i, k, e)
    ensures forall k: nat, e: nat :: TokenAt(s, q, i, k, e) ==> r == Some((k, e))
  {
    if !StartsAt(s, i, Header(q)) || i + 8 >= |s| then None
    else
      var k := if IsSpace(s[i + 8]) then i + 9 else i + 8;
      if k >= |s| || s[k] != q then None
      else
        var e := WordRunEnd(s, k + 1);
        if e == k + 1 || e + 2 > |s| || s[e] != q || s[e + 1] != '}' then None
        else Some((k, e))
  }

  /** `re.search`: the leftmost match at or after `from`, as `(i, k, e)`. */
  function SearchFrom(s: string, q: char, from: nat): (r: Option<(nat, nat, nat)>)
    requires !IsWordChar(q) && !IsSpace(q)
    ensures r.Some? ==> from <= r.value.0 && TokenAt(s, q, r.value.0, r.value.1, r.value.2)
    ensures r.Some? ==> forall i: nat, k: nat, e: nat :: from <= i < r.value.0 ==> !TokenAt(s, q, i, k, e)
    ensures r.None? ==> forall i: nat, k: nat, e: nat :: from <= i ==> !TokenAt(s, q, i, k, e)
    decreases |s| - from
  {
    if from >= |s| then None
    else match MatchAt(s, q, from)
      case Some((k, e)) => Some((from, k, e))
      case None => SearchFrom(s, q, from + 1)
  }

  /** Some match exists anywhere in `s`. */
  ghost predicate HasToken(s: string, q: char)
  {
    exists i: nat, k: nat, e: nat :: TokenAt(s, q, i, k, e)
  }

  /** `t` is the leftmost match of the pattern with quote `q` in `s`. */
  ghost predicate FirstToken(s: string, q: char, t: string)
  {
    exists i: nat, k: nat, e: nat ::
      && TokenAt(s, q, i, k, e) && t == s[i..e + 2]
      && forall i': nat, k': nat, e': nat :: TokenAt(s, q, i', k', e') ==> i <= i'
  }

  /** The leftmost matched text with quote `q`. */
  function Search(s: string, q: char): (r: Option<string>)
    requires !IsWordChar(q) && !IsSpace(q)
    ensures r.Some? <==> HasToken(s, q)
    ensures r.Some? ==> FirstToken(s, q, r.value)
  {
    match SearchFrom(s, q, 0)
    case Some((i, k, e)) => Some(s[i..e + 2])
    case None => None
  }

  /**
   * The dynamic controller's `extract_next_step`: only the double-quoted
   * form is looked for; no match is a `ValueError`.
   */
  function ExtractNextStep(response: string): (r: Result<string>)
    ensures r.Ok? <==> HasToken(response, '"')
    ensures r.Ok? ==> FirstToken(response, '"', r.value)
    ensures r.Err? ==> r.error == ValueError
  {
    match Search(response, '"')
    case Some(t) => Ok(t)
    case None => Err(ValueError)
  }

  /**
   * The static controller's `extract_next_step`: the double-quoted pattern
   * first, then the single-quoted one; neither is a `ValueError`.
   */
  function ExtractNextStepEitherQuote(response: string): (r: Result<string>)
    ensures r.Ok? <==> HasToken(response, '"') || HasToken(response, '\'')
    ensures HasToken(response, '"') ==> r.Ok? && FirstToken(response, '"', r.value)
    ensures !HasToken(response, '"') && HasToken(response, '\'') ==> r.Ok? && FirstToken(response, '\'', r.value)
    ensures r.Err? ==> r.error == ValueError
  {
    match Search(response, '"')
    case Some(t) => Ok(t)
    case None =>
      match Search(response, '\'')
      case Some(t) => Ok(t)
      case None => Err(ValueError)
  }

  /** Whenever the dynamic extractor succeeds, the static one returns the same text. */
  lemma EitherQuoteExtends(response: string)
    ensures ExtractNextStep(response).Ok? ==> ExtractNextStepEitherQuote(response) == ExtractNextStep(response)
    ensures ExtractNextStep(response).Err? && ExtractNextStepEitherQuote(response).Ok? ==> HasToken(response, '\'')
  {
  }

  /**
   * `json.loads` on the texts the extractors return. A matched text
   * `{QNextQ:<sp>QwordQ}` decodes to `{"Next": word}` exactly when the
   * quotes are double and the optional separator is absent or JSON
   * whitespace (`\s` admits more characters than JSON does); any other
   * matched text is a `JSONDecodeError`. The result is the word.
   */
  function LoadsToken(t: string): (r: Result<string>)
    ensures r.Ok? ==> |r.value| > 0 && forall m :: 0 <= m < |r.value| ==> IsWordChar(r.value[m])
    ensures r.Err? ==> r.error == JsonDecodeError
  {
    if |t| >= 12 && StartsAt(t, 0, Header('"')) && t[|t| - 2..] == "\"}" then
      var k := if IsJsonSpace(t[8]) then 9 else 8;
      var w := t[k + 1..|t| - 2];
      if t[k] == '"' && |w| > 0 && forall m :: 0 <= m < |w| ==> IsWordChar(w[m]) then Ok(w)
      else Err(JsonDecodeError)
    else Err(JsonDecodeError)
  }

  lemma SliceOfSlice(s: string, i: nat, j: nat, a: nat, b: nat)
    requires i <= j <= |s| && a <= b <= j - i
    ensures s[i..j][a..b] == s[i + a..i + b]
  {
    assert forall m :: 0 <= m < b - a ==> s[i..j][a..b][m] == s[i + a + m];
  }

  /** What decoding a match gives, in terms of its positions. */
  lemma LoadsTokenAt(s: string, q: char, i: nat, k: nat, e: nat)
    requires TokenAt(s, q, i, k, e)
    ensures LoadsToken(s[i..e + 2]).Ok? <==> q == '"' && (k == i + 8 || IsJsonSpace(s[i + 8]))
    ensures LoadsToken(s[i..e + 2]).Ok? ==> LoadsToken(s[i..e + 2]).value == s[k + 1..e]
  {
    var t := s[i..e + 2];
    assert t[..8] == s[i..i + 8];
    assert t[|t| - 2..] == [s[e], s[e + 1]];
    if q == '"' {
      assert t[8] == s[i + 8];
      if k == i + 9 && !IsJsonSpace(s[i + 8]) {
        assert t[8] != '"' by { assert IsSpace(s[i + 8]); }
      } else {
        SliceOfSlice(s, i, e + 2, k - i + 1, e - i);
        var w := s[k + 1..e];
        assert t[k - i] == '"';
        assert forall m :: 0 <= m < |w| ==> IsWordChar(w[m]) by {
          forall m | 0 <= m < |w| ensures IsWordChar(w[m]) {
            assert w[m] == s[k + 1 + m];
          }
        }
      }
    } else {
      assert t[1] == q;
    }
  }

  /** The dynamic controller's decision: extract, then decode. */
  function DecideNextStep(response: string): (r: Result<string>)
    ensures r.Ok? ==> |r.value| > 0 && forall m :: 0 <= m < |r.value| ==> IsWordChar(r.value[m])
  {
    var t :- ExtractNextStep(response);
    LoadsToken(t)
  }

  /** The quote-repair of the static controller: every `'` becomes `"`. */
  function Requote(s: string): (r: string)
    ensures |r| == |s|
    ensures forall m :: 0 <= m < |s| ==> r[m] == (if s[m] == '\'' then '"' else s[m])
  {
    seq(|s|, m requires 0 <= m < |s| => if s[m] == '\'' then '"' else s[m])
  }

  /** The repair is Python's `s.replace("'", '"')`. */
  lemma RequoteIsReplace(s: string)
    ensures Requote(s) == ReplaceAll(s, ['\''], "\"")
  {
    ReplaceCharIsMap(s, '\'', "\"");
    RequoteIsMap(s);
  }

  lemma {:induction false} RequoteIsMap(s: string)
    ensures Requote(s) == MapChar(s, '\'', "\"")
    decreases |s|
  {
    if s != [] {
      RequoteIsMap(s[1..]);
      assert Requote(s) == [Requote(s)[0]] + Requote(s[1..]);
    }
  }

  /** After the repair, a match of either quote style is a double-quoted match at the same place. */
  lemma RequoteKeepsToken(s: string, q: char, i: nat, k: nat, e: nat)
    requires q == '"' || q == '\''
    requires TokenAt(s, q, i, k, e)
    ensures TokenAt(Requote(s), '"', i, k, e)
  {
    var r := Requote(s);
    forall m | 0 <= m < 8
      ensures r[i + m] == Header('"')[m]
    {
      assert s[i + m] == Header(q)[m];
    }
    assert StartsAt(r, i, Header('"'));
  }

  /**
   * The static controller's decision (`generate_next_step`): extract and
   * decode; on a `JSONDecodeError` repair the quotes in the whole reply and
   * try once more. A `ValueError` from the first extraction is not caught.
   */
  function DecideNextStepRepairing(response: string): (r: Result<string>)
    ensures r.Ok? ==> |r.value| > 0 && forall m :: 0 <= m < |r.value| ==> IsWordChar(r.value[m])
    ensures r.Err? ==> r.error in {ValueError, JsonDecodeError}
  {
    var t :- ExtractNextStepEitherQuote(response);
    match LoadsToken(t)
    case Ok(w) => Ok(w)
    case Err(_) =>
      var t' :- ExtractNextStepEitherQuote(Requote(response));
      LoadsToken(t')
  }

  /** The repair never meets a missing token: the retry's extraction always succeeds. */
  lemma RepairFindsToken(response: string)
    requires ExtractNextStepEitherQuote(response).Ok?
    ensures ExtractNextStep(Requote(response)).Ok?
  {
    var q := if HasToken(response, '"') then '"' else '\'';
    var i: nat, k: nat, e: nat :| TokenAt(response, q, i, k, e);
    RequoteKeepsToken(response, q, i, k, e);
  }

  /** A single-quoted match never decodes: `json.loads` needs double quotes. */
  lemma SingleQuotedMatchUndecodable(response: string)
    requires ExtractNextStepEitherQuote(response).Ok? && !HasToken(response, '"')
    ensures LoadsToken(ExtractNextStepEitherQuote(response).value).Err?
  {
    var t := ExtractNextStepEitherQuote(response).value;
    var i: nat, k: nat, e: nat :| TokenAt(response, '\'', i, k, e) && t == response[i..e + 2];
    assert response[i..i + 8] == Header('\'');
    assert t[1] == response[i + 1] == '\'';
    assert !StartsAt(t, 0, Header('"'));
  }

  /** After the repair no single quote is left, so both extractors find the same match. */
  lemma RequotedDoubleOnly(response: string)
    ensures ExtractNextStepEitherQuote(Requote(response)) == ExtractNextStep(Requote(response))
  {
    var r := Requote(response);
    assert '\'' !in r;
    NoTokenWithout(r, '\'');
  }

  /** A quote character absent from the text rules out every match with it. */
  lemma NoTokenWithout(s: string, q: char)
    requires q !in s
    ensures !HasToken(s, q)
  {
  }

  /** A text that is one whole match is its own leftmost match. */
  lemma WholeToken(s: string, q: char, t: string)
    requires !IsWordChar(q) && !IsSpace(q)
    requires |s| >= 2 && TokenAt(s, q, 0, 9, |s| - 2)
    requires FirstToken(s, q, t)
    ensures t == s
  {
    var i: nat, k: nat, e: nat :| TokenAt(s, q, i, k, e) && t == s[i..e + 2]
      && forall i': nat, k': nat, e': nat :: TokenAt(s, q, i', k', e') ==> i <= i';
    assert i == 0;
    var last: nat := |s| - 2;
    assert MatchAt(s, q, 0) == Some((9, last));
    assert s[0..|s|] == s;
  }

  const SingleQuoted: string := "{'Next': 'end'}"

  /** A single-quoted decision is refused by the dynamic controller. */
  lemma SingleQuotesRefused()
    ensures DecideNextStep(SingleQuoted) == Err(ValueError)
  {
    NoTokenWithout(SingleQuoted, '"');
  }

  const DoubleQuoted: string := "{\"Next\": \"end\"}"

  lemma RequoteSingleQuoted()
    ensures Requote(SingleQuoted) == DoubleQuoted
  {
  }

  /** The first attempt finds the single-quoted token... */
  lemma SingleQuotedExtracted()
    ensures ExtractNextStepEitherQuote(SingleQuoted) == Ok(SingleQuoted)
  {
    SingleQuotedTokens();
    WholeToken(SingleQuoted, '\'', ExtractNextStepEitherQuote(SingleQuoted).value);
  }

  /** The single-quoted reply holds no double quote and is one whole single-quoted match. */
  lemma SingleQuotedTokens()
    ensures !HasToken(SingleQuoted, '"') && TokenAt(SingleQuoted, '\'', 0, 9, 13)
  {
    NoTokenWithout(SingleQuoted, '"');
    assert TokenAt(SingleQuoted, '\'', 0, 9, 13);
  }

  /** ...but cannot decode it. */
  lemma SingleQuotedUndecodable()
    ensures LoadsToken(SingleQuoted).Err?
  {
    assert SingleQuoted[1] != Header('"')[1];
  }

  /** The retry finds and decodes the repaired token. */
  lemma DoubleQuotedRetry()
    ensures ExtractNextStepEitherQuote(DoubleQuoted) == Ok(DoubleQuoted)
    ensures LoadsToken(DoubleQuoted) == Ok("end")
  {
    DoubleQuotedExtracted();
    DoubleQuotedDecoded();
  }

  lemma DoubleQuotedExtracted()
    ensures ExtractNextStepEitherQuote(DoubleQuoted) == Ok(DoubleQuoted)
  {
    var r := DoubleQuoted;
    assert TokenAt(r, '"', 0, 9, 13);
    WholeToken(r, '"', ExtractNextStepEitherQuote(r).value);
  }

  lemma DoubleQuotedDecoded()
    ensures LoadsToken(DoubleQuoted) == Ok("end")
  {
    var r := DoubleQuoted;
    assert TokenAt(r, '"', 0, 9, 13);
    LoadsTokenAt(r, '"', 0, 9, 13);
    assert r[0..15] == r;
    assert r[10..13] == "end";
  }

  /** The static controller accepts a single-quoted decision after repairing the quotes. */
  lemma SingleQuotesRepaired()
    ensures DecideNextStepRepairing(SingleQuoted) == Ok("end")
  {
    RequoteSingleQuoted();
    SingleQuotedExtracted();
    SingleQuotedUndecodable();
    DoubleQuotedRetry();
  }
}
