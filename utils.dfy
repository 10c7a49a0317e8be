// The helpers of the utility module: POSIX path joining for the prompt
// cache, the property lookup in the PII configuration, the paragraph
// splitter and the prompt dictionary built from the prompt configuration.

module Utils {
  import opened Wrappers
  import opened Text
  import opened Dicts
  import opened Json
  import opened Seqs

  // ---------------------------------------------------------------------
  // Paths

  /** `os.path.join(a, b)` on POSIX: an absolute `b` replaces `a`; otherwise one `/` goes between. */
  function PathJoin(a: string, b: string): (r: string)
    ensures |b| > 0 && b[0] == '/' ==> r == b
    ensures !(|b| > 0 && b[0] == '/') ==> |r| >= |a| + |b| && r[..|a|] == a && r[|r| - |b|..] == b
    ensures !(|b| > 0 && b[0] == '/') ==> |r| == |a| + |b| || (|r| == |a| + 1 + |b| && r[|a|] == '/')
  {
    if |b| > 0 && b[0] == '/' then b
    else if a == [] || a[|a| - 1] == '/' then a + b
    else a + "/" + b
  }

  /** `os.path.join(root, category, pii)`: the folder holding one PII's prompts. */
  function PromptFolder(root: string, category: string, pii: string): string
  {
    PathJoin(PathJoin(root, category), pii)
  }

  /** `<pii>_<type>.<ending>`: the name of a cached prompt file. */
  function CacheFileName(pii: string, promptType: string, ending: string): string
  {
    pii + "_" + promptType + "." + ending
  }

  /** The cache path of `check_if_file_exists`: `<root>/<category>/<pii>/<pii>_<type>.<ending>`. */
  function CachePath(root: string, category: string, pii: string, promptType: string, ending: string): string
  {
    PathJoin(PromptFolder(root, category, pii), CacheFileName(pii, promptType, ending))
  }

  /** `s.rfind(c)`. */
  function RFind(s: string, c: char): (r: Option<nat>)
    ensures r.Some? ==> r.value < |s| && s[r.value] == c && forall j :: r.value < j < |s| ==> s[j] != c
    ensures r.None? ==> forall j :: 0 <= j < |s| ==> s[j] != c
  {
    if s == [] then None
    else if s[|s| - 1] == c then Some(|s| - 1)
    else RFind(s[..|s| - 1], c)
  }

  /** `s.rstrip(c)`. */
  function RStrip(s: string, c: char): (r: string)
    ensures |r| <= |s| && r == s[..|r|]
    ensures r != [] ==> r[|r| - 1] != c
    ensures forall j :: |r| <= j < |s| ==> s[j] == c
  {
    if s == [] || s[|s| - 1] != c then s else RStrip(s[..|s| - 1], c)
  }

  predicate AllSlashes(s: string)
  {
    forall j :: 0 <= j < |s| ==> s[j] == '/'
  }

  /** `os.path.dirname(p)`: everything up to the last `/`, without trailing slashes unless it is all slashes. */
  function Dirname(p: string): (r: string)
  {
    var head := match RFind(p, '/') case None => "" case Some(i) => p[..i + 1];
    if head != [] && !AllSlashes(head) then RStrip(head, '/') else head
  }

  /**
   * The folder `create_folder_to_save` makes is the directory of the file
   * `check_if_file_exists` looks for, whenever the names involved are
   * plain (the file name has no `/` and the folder does not end in one).
   */
  lemma CacheFileInFolder(root: string, category: string, pii: string, promptType: string, ending: string)
    requires '/' !in CacheFileName(pii, promptType, ending)
    requires var f := PromptFolder(root, category, pii); f != [] && f[|f| - 1] != '/'
    ensures Dirname(CachePath(root, category, pii, promptType, ending)) == PromptFolder(root, category, pii)
  {
    var f := PromptFolder(root, category, pii);
    var name := CacheFileName(pii, promptType, ending);
    assert name[|pii|] == '_';
    assert CachePath(root, category, pii, promptType, ending) == f + "/" + name;
    DirnameOfJoin(f, name);
  }

  /** The directory of `f/name` is `f`, for a folder without a trailing `/` and a name without `/`. */
  lemma DirnameOfJoin(f: string, name: string)
    requires f != [] && f[|f| - 1] != '/' && '/' !in name
    ensures Dirname(f + "/" + name) == f
  {
    var p := f + "/" + name;
    var head := f + "/";
    SlashJoinParts(f, name);
    LastSlash(p, |f|);
    assert !AllSlashes(head) by {
      assert head[|f| - 1] == f[|f| - 1];
    }
    RStripOne(f);
  }

  /** Where the inserted `/` sits, and what comes before and after it. */
  lemma SlashJoinParts(f: string, name: string)
    requires '/' !in name
    ensures var p := f + "/" + name;
            && |p| == |f| + 1 + |name| && p[|f|] == '/' && p[..|f| + 1] == f + "/"
            && forall j :: |f| < j < |p| ==> p[j] != '/'
  {
    var p := f + "/" + name;
    forall j | |f| < j < |p|
      ensures p[j] != '/'
    {
      assert p[j] == name[j - |f| - 1];
    }
  }

  /** `rfind` finds an occurrence that no later character repeats. */
  lemma LastSlash(p: string, i: nat)
    requires i < |p| && p[i] == '/' && forall j :: i < j < |p| ==> p[j] != '/'
    ensures RFind(p, '/') == Some(i)
  {
  }

  /** Stripping the trailing `/` of `f/` gives back a folder that does not end in `/`. */
  lemma RStripOne(f: string)
    requires f != [] && f[|f| - 1] != '/'
    ensures RStrip(f + "/", '/') == f
  {
    assert (f + "/")[..|f|] == f;
  }

  // ---------------------------------------------------------------------
  // The PII configuration

  /** `get_property_information`: the one-entry dict `{pii: yml[pii]}`. */
  function GetPropertyInformation(yml: Json, pii: string): (r: Result<Json>)
    ensures r.Ok? <==> yml.JObj? && HasKey(yml.fields, pii)
    ensures r.Ok? ==> r.value.JObj? && Keys(r.value.fields) == [pii] && Subscript(r.value, pii) == Subscript(yml, pii)
    ensures r.Err? ==> r.error == (if yml.JObj? then KeyError else TypeError)
  {
    var entry :- Subscript(yml, pii);
    Ok(Single(pii, entry))
  }

  // ---------------------------------------------------------------------
  // Paragraph splitting

  const ParagraphBreak: string := "\n\n"

  /** The paragraphs that are not on the ignore list, in order. */
  function Kept(paragraphs: seq<string>, ignore: seq<string>): (r: seq<string>)
    ensures |r| <= |paragraphs|
    ensures forall x :: x in r <==> x in paragraphs && x !in ignore
  {
    if paragraphs == [] then []
    else (if paragraphs[0] in ignore then [] else [paragraphs[0]]) + Kept(paragraphs[1..], ignore)
  }

  /** Filtering distributes over concatenation, so the kept paragraphs keep their order. */
  lemma {:induction false} KeptConcat(a: seq<string>, b: seq<string>, ignore: seq<string>)
    ensures Kept(a + b, ignore) == Kept(a, ignore) + Kept(b, ignore)
  {
    if a == [] {
      assert a + b == b;
    } else {
      assert (a + b)[1..] == a[1..] + b;
      KeptConcat(a[1..], b, ignore);
    }
  }

  /** A list with nothing to ignore is kept whole. */
  lemma {:induction false} KeptNothingIgnored(paragraphs: seq<string>, ignore: seq<string>)
    requires forall i :: 0 <= i < |paragraphs| ==> paragraphs[i] !in ignore
    ensures Kept(paragraphs, ignore) == paragraphs
  {
    if paragraphs != [] {
      KeptNothingIgnored(paragraphs[1..], ignore);
    }
  }

  /** The slices `ps[i:i+k]` for `i` in `range(0, len(ps), k)`, each joined by blank lines. */
  function Groups(ps: seq<string>, k: nat): (r: seq<string>)
    requires k > 0
    ensures ps == [] <==> r == []
    decreases |ps|
  {
    if ps == [] then []
    else if |ps| <= k then [Join(ParagraphBreak, ps)]
    else [Join(ParagraphBreak, ps[..k])] + Groups(ps[k..], k)
  }

  /** There are `ceil(m / k)` chunks for `m` paragraphs. */
  lemma {:induction false} GroupsCount(ps: seq<string>, k: nat)
    requires k > 0
    ensures var n := |Groups(ps, k)|; k * n >= |ps| && (n > 0 ==> k * (n - 1) < |ps|)
    decreases |ps|
  {
    if |ps| > k {
      GroupsCount(ps[k..], k);
      var n' := |Groups(ps[k..], k)|;
      assert |Groups(ps, k)| == n' + 1;
      assert k * (n' + 1) == k * n' + k;
    }
  }

  /** Chunk `j` joins the paragraphs `j*k` up to (not including) `j*k + k`, or to the end. */
  lemma GroupAt(ps: seq<string>, k: nat, j: nat)
    requires k > 0 && j < |Groups(ps, k)|
    ensures j * k < |ps|
    ensures Groups(ps, k)[j] == Join(ParagraphBreak, ps[j * k..if j * k + k <= |ps| then j * k + k else |ps|])
  {
    StrideIsProduct(j, k);
    GroupAtOffset(ps, k, j);
  }

  /** `j * k`, counted up `k` at a time. */
  function Stride(j: nat, k: nat): nat
  {
    if j == 0 then 0 else Stride(j - 1, k) + k
  }

  lemma {:induction false} StrideIsProduct(j: nat, k: nat)
    ensures Stride(j, k) == j * k
  {
    if j > 0 {
      StrideIsProduct(j - 1, k);
    }
  }

  /** Past the first chunk, the chunks are those of the remaining paragraphs. */
  lemma GroupsTail(ps: seq<string>, k: nat, j: nat)
    requires k > 0 && |ps| > k && 0 < j < |Groups(ps, k)|
    ensures j - 1 < |Groups(ps[k..], k)| && Groups(ps, k)[j] == Groups(ps[k..], k)[j - 1]
  {
    ConsIndex(Join(ParagraphBreak, ps[..k]), Groups(ps[k..], k), j);
  }

  /** Where the chunk starting at `lo` ends in a list of `n` paragraphs. */
  function ChunkEnd(lo: nat, k: nat, n: nat): nat
  {
    if lo + k <= n then lo + k else n
  }

  /** `GroupAt` with the chunk's first paragraph counted by `Stride`. */
  lemma {:induction false} GroupAtOffset(ps: seq<string>, k: nat, j: nat)
    requires k > 0 && j < |Groups(ps, k)|
    ensures Stride(j, k) < |ps|
    ensures Groups(ps, k)[j] == Join(ParagraphBreak, ps[Stride(j, k)..ChunkEnd(Stride(j, k), k, |ps|)])
    decreases |ps|
  {
    if |ps| <= k {
      assert j == 0;
      assert ps[0..|ps|] == ps;
    } else if j == 0 {
      assert ps[0..k] == ps[..k];
    } else {
      var rest := ps[k..];
      GroupAtOffset(rest, k, j - 1);
      GroupsTail(ps, k, j);
      var lo := Stride(j - 1, k);
      SliceDrop(ps, k, lo, ChunkEnd(lo, k, |rest|));
    }
  }

  /** `sep.join(a + b) == sep.join(a) + sep + sep.join(b)` for non-empty `a` and `b`. */
  lemma {:induction false} JoinConcat(sep: string, a: seq<string>, b: seq<string>)
    requires a != [] && b != []
    ensures Join(sep, a + b) == Join(sep, a) + sep + Join(sep, b)
    decreases |a|
  {
    if |a| == 1 {
      assert (a + b)[1..] == b;
    } else {
      assert (a + b)[1..] == a[1..] + b;
      JoinConcat(sep, a[1..], b);
    }
  }

  /** Joining the chunks with blank lines gives back the kept paragraphs joined with blank lines. */
  lemma {:induction false} JoinGroups(ps: seq<string>, k: nat)
    requires k > 0
    ensures Join(ParagraphBreak, Groups(ps, k)) == Join(ParagraphBreak, ps)
    decreases |ps|
  {
    if |ps| > k {
      var rest := Groups(ps[k..], k);
      JoinGroups(ps[k..], k);
      JoinConcat(ParagraphBreak, [Join(ParagraphBreak, ps[..k])], rest);
      JoinConcat(ParagraphBreak, ps[..k], ps[k..]);
      assert ps[..k] + ps[k..] == ps;
    }
  }

  /**
   * `split_text(text, k)` with the ignore list read from the environment:
   * split at blank lines, drop ignored paragraphs, regroup `k` at a time.
   * A step of zero is refused by `range` (`ValueError`); a negative step
   * yields no chunks.
   */
  function SplitText(text: string, ignore: seq<string>, paragraphsToMerge: int): (r: Result<seq<string>>)
    ensures r.Err? <==> paragraphsToMerge == 0
    ensures r.Err? ==> r.error == ValueError
    ensures paragraphsToMerge < 0 ==> r == Ok([])
  {
    if paragraphsToMerge == 0 then Err(ValueError)
    else if paragraphsToMerge < 0 then Ok([])
    else Ok(Groups(Kept(Split(text, ParagraphBreak), ignore), paragraphsToMerge))
  }

  /** Every chunk, by its position. */
  lemma GroupsAt(ps: seq<string>, k: nat)
    requires k > 0
    ensures forall j :: 0 <= j < |Groups(ps, k)| ==>
              j * k < |ps| && Groups(ps, k)[j] == Join(ParagraphBreak, ps[j * k..if j * k + k <= |ps| then j * k + k else |ps|])
  {
    forall j | 0 <= j < |Groups(ps, k)|
      ensures j * k < |ps|
      ensures Groups(ps, k)[j] == Join(ParagraphBreak, ps[j * k..if j * k + k <= |ps| then j * k + k else |ps|])
    {
      GroupAt(ps, k, j);
    }
  }

  /** What the chunks of `split_text` hold, for a positive group size. */
  lemma SplitTextChunks(text: string, ignore: seq<string>, k: nat)
    requires k > 0
    ensures var kept := Kept(Split(text, ParagraphBreak), ignore);
            var chunks := SplitText(text, ignore, k).value;
            && chunks == Groups(kept, k)
            && k * |chunks| >= |kept| && (|chunks| > 0 ==> k * (|chunks| - 1) < |kept|)
            && Join(ParagraphBreak, chunks) == Join(ParagraphBreak, kept)
  {
    var kept := Kept(Split(text, ParagraphBreak), ignore);
    GroupsCount(kept, k);
    JoinGroups(kept, k);
  }

  /** With nothing ignored, joining the chunks reproduces the text. */
  lemma SplitTextRejoins(text: string, ignore: seq<string>, k: nat)
    requires k > 0
    requires forall p :: p in Split(text, ParagraphBreak) ==> p !in ignore
    ensures Join(ParagraphBreak, SplitText(text, ignore, k).value) == text
  {
    var ps := Split(text, ParagraphBreak);
    KeptNothingIgnored(ps, ignore);
    JoinGroups(ps, k);
    JoinSplit(text, ParagraphBreak);
  }

  // ---------------------------------------------------------------------
  // The prompt dictionary

  /** `prompt_dict[super_category][sub_category][prompt_name] = text`. */
  type PromptDict = Dict<Dict<Dict<string>>>

  const MetaSubcategories: seq<string> := ["general", "independent", "individuals", "organisations"]

  /** The dictionary `set_prompts_argument` starts from. */
  const EmptyPromptDict: PromptDict :=
    [("meta_prompting", [("general", []), ("independent", []), ("individuals", []), ("organisations", [])]),
     ("linking", [])]

  /** The two levels of keys, which no assignment adds to or reorders. */
  predicate Shaped(d: PromptDict)
  {
    && Keys(d) == ["meta_prompting", "linking"]
    && Keys(d[0].1) == MetaSubcategories
    && d[1].1 == []
  }

  /** The file name of a config entry must be a string for `os.path.join`. */
  function PromptPath(folder: string, super: string, sub: string, fileName: Json): (r: Result<string>)
    ensures r.Ok? <==> fileName.JStr?
    ensures r.Ok? ==> r.value == PathJoin(PathJoin(PathJoin(folder, super), sub), fileName.s)
    ensures r.Err? ==> r.error == TypeError
  {
    if fileName.JStr? then Ok(PathJoin(PathJoin(PathJoin(folder, super), sub), fileName.s)) else Err(TypeError)
  }

  /** The nested assignment: an unknown category or subcategory is a `KeyError`. */
  function Store(d: PromptDict, super: string, sub: string, name: string, text: string): (r: Result<PromptDict>)
    requires Shaped(d)
    ensures r.Ok? <==> (super == "meta_prompting" && sub in MetaSubcategories)
    ensures r.Err? ==> r.error == KeyError
    ensures r.Ok? ==> Shaped(r.value)
    ensures r.Ok? ==> forall s :: s in MetaSubcategories ==>
                        Get(Get(r.value, super).value, s) ==
                          if s == sub then Some(Put(Get(Get(d, super).value, s).value, name, text))
                          else Get(Get(d, super).value, s)
  {
    assert HasKey(d, "meta_prompting") && HasKey(d, "linking") by { assert d[0].0 == "meta_prompting" && d[1].0 == "linking"; }
    var inner := Get(d, super);
    if inner.None? then Err(KeyError)
    else
      assert super == "meta_prompting" || super == "linking";
      var subs := Get(d, super).value;
      match Get(subs, sub)
      case None =>
        assert super == "linking" ==> subs == [];
        assert super == "meta_prompting" ==> subs == d[0].1;
        Err(KeyError)
      case Some(names) =>
        assert super == "meta_prompting" && subs == d[0].1;
        var subs' := Put(subs, sub, Put(names, name, text));
        var d' := Put(d, super, subs');
        assert Keys(subs) == MetaSubcategories;
        assert d' == d[0 := (super, subs')];
        StoreGets(subs, sub, Put(names, name, text));
        Ok(d')
  }

  lemma StoreGets(subs: Dict<Dict<string>>, sub: string, v: Dict<string>)
    requires Keys(subs) == MetaSubcategories && HasKey(subs, sub)
    ensures Keys(Put(subs, sub, v)) == MetaSubcategories
    ensures forall s :: s in MetaSubcategories ==> Get(Put(subs, sub, v), s) == if s == sub then Some(v) else Get(subs, s)
  {
    var subs' := Put(subs, sub, v);
    assert Wf(subs) by { assert Keys(subs) == ["general", "independent", "individuals", "organisations"]; }
    PutWf(subs, sub, v);
    forall s | s in MetaSubcategories
      ensures Get(subs', s) == if s == sub then Some(v) else Get(subs, s)
    {
      PutGet(subs, sub, v, s);
    }
  }

  /** `list(entry.keys())[0]` and `entry[name]`: the prompt name and its file. */
  function ConfigEntry(entry: Json): (r: Result<(string, Json)>)
    ensures r.Ok? <==> entry.JObj? && |entry.fields| > 0
    ensures r.Ok? ==> r.value == entry.fields[0]
  {
    // `entry[name]` for the entry's own first key always succeeds.
    var name :- FirstKey(entry);
    Ok((name, entry.fields[0].1))
  }

  /** The innermost loop over the entries of one subcategory. */
  function StoreEntries(d: PromptDict, folder: string, super: string, sub: string, entries: seq<Json>, read: string -> string)
    : (r: Result<PromptDict>)
    requires Shaped(d)
    ensures r.Ok? ==> Shaped(r.value)
    decreases |entries|
  {
    if entries == [] then Ok(d)
    else
      var entry :- ConfigEntry(entries[0]);
      var path :- PromptPath(folder, super, sub, entry.1);
      var d' :- Store(d, super, sub, entry.0, read(path));
      StoreEntries(d', folder, super, sub, entries[1..], read)
  }

  /** The middle loop over the subcategories of one category. */
  function StoreSubcategories(d: PromptDict, folder: string, super: string, subs: Dict<Json>, read: string -> string)
    : (r: Result<PromptDict>)
    requires Shaped(d)
    ensures r.Ok? ==> Shaped(r.value)
    decreases |subs|
  {
    if subs == [] then Ok(d)
    else
      var entries :- Iterate(subs[0].1);
      var d' :- StoreEntries(d, folder, super, subs[0].0, entries, read);
      StoreSubcategories(d', folder, super, subs[1..], read)
  }

  /** The outer loop over the categories of the configuration. */
  function StoreCategories(d: PromptDict, folder: string, config: Dict<Json>, read: string -> string)
    : (r: Result<PromptDict>)
    requires Shaped(d)
    ensures r.Ok? ==> Shaped(r.value)
    decreases |config|
  {
    if config == [] then Ok(d)
    else
      var subs :- Items(config[0].1);
      var d' :- StoreSubcategories(d, folder, config[0].0, subs, read);
      StoreCategories(d', folder, config[1..], read)
  }

  /** The prompt dictionary built from the whole configuration; only a dict has `.items()`. */
  function PromptsFromConfig(folder: string, config: Json, read: string -> string): (r: Result<PromptDict>)
    ensures !config.JObj? ==> r == Err(AttributeError)
    ensures r.Ok? ==> Shaped(r.value)
  {
    var top :- Items(config);
    StoreCategories(EmptyPromptDict, folder, top, read)
  }

  /**
   * `set_prompts_argument`: for every category, subcategory and entry of
   * the configuration, read the named file and store its text under the
   * entry's first key. `read` stands for opening and reading the file.
   */
  method SetPromptsArgument(folder: string, config: Json, read: string -> string) returns (r: Result<PromptDict>)
    ensures r == PromptsFromConfig(folder, config, read)
    ensures r.Ok? ==> Shaped(r.value)
  {
    var top :- Items(config);
    var d := EmptyPromptDict;
    var i := 0;
    while i < |top|
      invariant 0 <= i <= |top| && Shaped(d)
      invariant StoreCategories(EmptyPromptDict, folder, top, read) == StoreCategories(d, folder, top[i..], read)
    {
      assert top[i..][1..] == top[i + 1..];
      var subs :- Items(top[i].1);
      var j := 0;
      var d1 := d;
      while j < |subs|
        invariant 0 <= j <= |subs| && Shaped(d1)
        invariant StoreSubcategories(d, folder, top[i].0, subs, read) == StoreSubcategories(d1, folder, top[i].0, subs[j..], read)
      {
        assert subs[j..][1..] == subs[j + 1..];
        var entries :- Iterate(subs[j].1);
        var k := 0;
        var d2 := d1;
        while k < |entries|
          invariant 0 <= k <= |entries| && Shaped(d2)
          invariant StoreEntries(d1, folder, top[i].0, subs[j].0, entries, read)
                    == StoreEntries(d2, folder, top[i].0, subs[j].0, entries[k..], read)
        {
          assert entries[k..][1..] == entries[k + 1..];
          var entry :- ConfigEntry(entries[k]);
          var path :- PromptPath(folder, top[i].0, subs[j].0, entry.1);
          d2 :- Store(d2, top[i].0, subs[j].0, entry.0, read(path));
          k := k + 1;
        }
        assert entries[k..] == [];
        d1 := d2;
        j := j + 1;
      }
      assert subs[j..] == [];
      d := d1;
      i := i + 1;
    }
    assert top[i..] == [];
    return Ok(d);
  }

  /** The starting dictionary has the two levels of keys, all subcategories empty. */
  lemma EmptyPromptDictShaped(sub: string)
    requires sub in MetaSubcategories
    ensures Shaped(EmptyPromptDict)
    ensures Get(Get(EmptyPromptDict, "meta_prompting").value, sub) == Some([])
  {
    var d := EmptyPromptDict;
    var subs := d[0].1;
    assert Keys(d) == ["meta_prompting", "linking"] by {
      assert Keys(d)[0] == "meta_prompting" && Keys(d)[1] == "linking";
    }
    assert Keys(subs) == MetaSubcategories by {
      assert Keys(subs)[0] == "general" && Keys(subs)[1] == "independent";
      assert Keys(subs)[2] == "individuals" && Keys(subs)[3] == "organisations";
    }
    assert Get(d, "meta_prompting") == Some(subs);
    assert forall i :: 0 <= i < |subs| ==> subs[i].1 == [];
    assert Wf(subs);
  }

  /** The assigned subcategory gains the entry. */
  lemma StoreHit(d: PromptDict, super: string, sub: string, name: string, text: string)
    requires Shaped(d) && super == "meta_prompting" && sub in MetaSubcategories
    ensures Store(d, super, sub, name, text).Ok?
    ensures Get(Get(Store(d, super, sub, name, text).value, super).value, sub)
            == Some(Put(Get(Get(d, super).value, sub).value, name, text))
  {
  }

  /** One configured prompt: its text is the file's, under its name, in its subcategory. */
  lemma SinglePromptStored(folder: string, sub: string, name: string, file: string, read: string -> string)
    requires sub in MetaSubcategories
    ensures var config := JObj([("meta_prompting", JObj([(sub, JArr([Single(name, JStr(file))]))]))]);
            var r := PromptsFromConfig(folder, config, read);
            && r.Ok?
            && Get(Get(r.value, "meta_prompting").value, sub)
               == Some([(name, read(PathJoin(PathJoin(PathJoin(folder, "meta_prompting"), sub), file)))])
  {
    var path := PathJoin(PathJoin(PathJoin(folder, "meta_prompting"), sub), file);
    var d0 := EmptyPromptDict;
    var text := read(path);
    EmptyPromptDictShaped(sub);
    var d1 := Store(d0, "meta_prompting", sub, name, text);
    StoreHit(d0, "meta_prompting", sub, name, text);
    var entries := [Single(name, JStr(file))];
    StoreOneEntry(d0, folder, sub, name, file, read);
    var subs := [(sub, JArr(entries))];
    StoreSubcategoriesSingle(d0, folder, "meta_prompting", sub, entries, read);
    StoreCategoriesSingle(d0, folder, "meta_prompting", subs, read);
    assert Put([], name, text) == [(name, text)];
  }

  /** A configuration with one subcategory stores that subcategory's entries. */
  lemma StoreSubcategoriesSingle(d: PromptDict, folder: string, super: string, sub: string, entries: seq<Json>, read: string -> string)
    requires Shaped(d)
    ensures StoreSubcategories(d, folder, super, [(sub, JArr(entries))], read) == StoreEntries(d, folder, super, sub, entries, read)
  {
    var subs := [(sub, JArr(entries))];
    assert subs[1..] == [];
  }

  /** A configuration with one category stores that category's subcategories. */
  lemma StoreCategoriesSingle(d: PromptDict, folder: string, super: string, subs: Dict<Json>, read: string -> string)
    requires Shaped(d)
    ensures StoreCategories(d, folder, [(super, JObj(subs))], read) == StoreSubcategories(d, folder, super, subs, read)
  {
    var top := [(super, JObj(subs))];
    assert top[1..] == [];
  }

  lemma StoreOneEntry(d: PromptDict, folder: string, sub: string, name: string, file: string, read: string -> string)
    requires Shaped(d)
    ensures StoreEntries(d, folder, "meta_prompting", sub, [Single(name, JStr(file))], read)
            == Store(d, "meta_prompting", sub, name, read(PathJoin(PathJoin(PathJoin(folder, "meta_prompting"), sub), file)))
  {
    var entries := [Single(name, JStr(file))];
    assert ConfigEntry(entries[0]) == Ok((name, JStr(file)));
    assert entries[1..] == [];
  }

  /** The `linking` category starts empty, so any entry configured under it is a `KeyError`. */
  lemma LinkingEntryRejected(folder: string, sub: string, name: string, file: string, read: string -> string)
    ensures var config := JObj([("linking", JObj([(sub, JArr([Single(name, JStr(file))]))]))]);
            PromptsFromConfig(folder, config, read) == Err(KeyError)
  {
    assert Get(EmptyPromptDict, "linking") == Some([]);
  }
}
