/** The retrieval index of vector_store.py: one document, one embedding and
    one metadata record per knowledge-base entry, kept in parallel
    sequences; a saved artifact that is loaded instead of rebuilt; top-k
    search over similarity scores; the context text handed to the
    assistant; and the lazily built shared instance. The sentence encoder
    is an oracle function, and the cosine scores of a query are given. */
module VectorStore {
  import opened Wrappers
  import Text
  import opened EtfKnowledge

  type Embedding = seq<real>

  /** The sentence encoder. */
  type Encoder = string -> Embedding

  /** The metadata kept beside each document. */
  datatype Metadata = Metadata(
    symbol: string,
    name: string,
    simpleName: string,
    category: string,
    riskLevel: string,
    expenseRatio: string)

  function MetadataOf(e: Entry): (m: Metadata)
    ensures m.symbol == e.symbol && m.name == e.info.name && m.simpleName == e.info.simpleName
    ensures m.category == e.info.category && m.riskLevel == e.info.riskLevel
    ensures m.expenseRatio == e.info.expenseRatio
  {
    Metadata(e.symbol, e.info.name, e.info.simpleName, e.info.category, e.info.riskLevel, e.info.expenseRatio)
  }

  /** The indentation of the document template's lines. */
  const Indent: string := "            "

  /** The template's layout in front of the first line. */
  const Layout: string := "\n" + Indent

  /** The template's first line. */
  function SymbolLine(e: Entry): string
  {
    "Symbol: " + e.symbol + "\n"
  }

  /** The template's remaining lines, from the name on. */
  function OtherLines(e: Entry): string
  {
    "Name: " + (e.info.name
    + "\n" + Indent + "Simple Name: " + e.info.simpleName
    + "\n" + Indent + "Category: " + e.info.category
    + "\n" + Indent + "Risk Level: " + e.info.riskLevel
    + "\n" + Indent + "Beginner Explanation: " + e.info.beginnerExplanation
    + "\n" + Indent + "Good For: " + e.info.goodFor
    + "\n" + Indent + "Why Beginners Love It: " + e.info.whyBeginnersLoveIt
    + "\n" + Indent + "Real World Example: " + e.info.realWorldExample
    + "\n" + Indent)
  }

  /** The document template before stripping. */
  function DocTemplate(e: Entry): string
  {
    Layout + (SymbolLine(e) + (Indent + OtherLines(e)))
  }

  /** The text embedded for one entry: the stripped template. */
  function DocText(e: Entry): string
  {
    Text.Strip(DocTemplate(e))
  }

  /** Stripping only removes the template's leading layout: every document
      opens with its symbol line. */
  lemma DocTextStartsWithSymbol(e: Entry)
    ensures |SymbolLine(e)| <= |DocText(e)| && DocText(e)[..|SymbolLine(e)|] == SymbolLine(e)
  {
    assert forall i :: 0 <= i < |Layout| ==> Text.IsSpace(Layout[i]);
    var tail := Indent + OtherLines(e);
    assert tail[|Indent|] == 'N';
    StripKeepsHead(Layout, SymbolLine(e), tail, |Indent|);
  }

  /** Stripping white space around `head` followed by some non-space keeps `head` whole. */
  lemma StripKeepsHead(layout: string, head: string, tail: string, k: nat)
    requires forall i :: 0 <= i < |layout| ==> Text.IsSpace(layout[i])
    requires head != [] && !Text.IsSpace(head[0])
    requires k < |tail| && !Text.IsSpace(tail[k])
    ensures |head| <= |Text.Strip(layout + (head + tail))|
    ensures Text.Strip(layout + (head + tail))[..|head|] == head
  {
    var rest := head + tail;
    TrimStartSkipsLayout(layout, rest);
    var r := Text.TrimEnd(rest);
    Text.TrimEndSpec(rest);
    assert !Text.IsSpace(rest[|head| + k]);
    assert |r| > |head| + k;
    assert r[..|head|] == rest[..|head|];
  }

  /** Leading white space in front of a non-space is removed exactly. */
  lemma {:induction false} TrimStartSkipsLayout(layout: string, rest: string)
    requires forall i :: 0 <= i < |layout| ==> Text.IsSpace(layout[i])
    requires rest != [] && !Text.IsSpace(rest[0])
    ensures Text.TrimStart(layout + rest) == rest
  {
    if layout != [] {
      assert (layout + rest)[1..] == layout[1..] + rest;
      TrimStartSkipsLayout(layout[1..], rest);
    }
  }

  /** What the artifact file holds. */
  datatype Artifact = Artifact(documents: seq<string>, embeddings: seq<Embedding>, metadata: seq<Metadata>)

  /** The three parallel sequences line up. */
  predicate Aligned(a: Artifact)
  {
    |a.documents| == |a.embeddings| == |a.metadata|
  }

  /** Document, metadata and embedding `i` all come from entry `i`. */
  ghost predicate BuiltFrom(a: Artifact, kb: KnowledgeBase, encoder: Encoder)
  {
    && |a.documents| == |a.metadata| == |a.embeddings| == |kb|
    && forall i :: 0 <= i < |kb| ==>
         a.documents[i] == DocText(kb[i]) && a.metadata[i] == MetadataOf(kb[i])
         && a.embeddings[i] == encoder(a.documents[i])
  }

  /** The cache file: absent, or holding the last artifact saved. */
  class ArtifactFile {
    var saved: Option<Artifact>

    constructor (contents: Option<Artifact>)
      ensures saved == contents
    {
      saved := contents;
    }

    /** _save_embeddings */
    method Save(a: Artifact)
      modifies this
      ensures saved == Some(a)
    {
      saved := Some(a);
    }

    /** _load_embeddings: what was saved last, unchanged. */
    method Load() returns (a: Artifact)
      requires saved.Some?
      ensures a == saved.value
    {
      a := saved.value;
    }
  }

  // ---------------------------------------------------------------------
  // Top-k selection

  /** Every index in `s` addresses a score. */
  ghost predicate InRange(s: seq<nat>, n: nat)
  {
    forall p :: 0 <= p < |s| ==> s[p] < n
  }

  ghost predicate Distinct(s: seq<nat>)
  {
    forall p, q :: 0 <= p < q < |s| ==> s[p] != s[q]
  }

  /** The indices in `s` have non-increasing scores. */
  ghost predicate Descending(scores: seq<real>, s: seq<nat>)
    requires InRange(s, |scores|)
  {
    forall p, q :: 0 <= p < q < |s| ==> scores[s[p]] >= scores[s[q]]
  }

  /** Places index `i` after every index with a score at least as high. */
  function Insert(scores: seq<real>, i: nat, sorted: seq<nat>): (r: seq<nat>)
    requires i < |scores| && InRange(sorted, |scores|)
    ensures |r| == |sorted| + 1 && InRange(r, |scores|)
    ensures forall x :: x in r <==> x == i || x in sorted
  {
    if sorted == [] then [i]
    else if scores[i] > scores[sorted[0]] then [i] + sorted
    else
      var rest := Insert(scores, i, sorted[1..]);
      assert forall x :: x in sorted[1..] ==> x in sorted;
      [sorted[0]] + rest
  }

  /** Insertion keeps the order by score. */
  lemma {:induction false} InsertDescending(scores: seq<real>, i: nat, sorted: seq<nat>)
    requires i < |scores| && InRange(sorted, |scores|) && Descending(scores, sorted)
    ensures Descending(scores, Insert(scores, i, sorted))
  {
    if sorted != [] && scores[i] <= scores[sorted[0]] {
      var tail := sorted[1..];
      InsertDescending(scores, i, tail);
      var rest := Insert(scores, i, tail);
      var r := Insert(scores, i, sorted);
      assert r == [sorted[0]] + rest;
      forall q | 0 <= q < |rest|
        ensures scores[sorted[0]] >= scores[rest[q]]
      {
        assert rest[q] in rest;
        if rest[q] != i {
          var t :| 0 <= t < |tail| && tail[t] == rest[q];
          assert sorted[t + 1] == rest[q];
        }
      }
    }
  }

  /** Inserting a new index keeps the indices distinct. */
  lemma {:induction false} InsertDistinct(scores: seq<real>, i: nat, sorted: seq<nat>)
    requires i < |scores| && InRange(sorted, |scores|) && Distinct(sorted) && i !in sorted
    ensures Distinct(Insert(scores, i, sorted))
  {
    if sorted != [] && scores[i] <= scores[sorted[0]] {
      var tail := sorted[1..];
      assert i !in tail;
      InsertDistinct(scores, i, tail);
      var rest := Insert(scores, i, tail);
      assert sorted[0] !in tail;
      assert sorted[0] !in rest;
    }
  }

  /** The indices below `n`, by non-increasing score. */
  function SortedIndices(scores: seq<real>, n: nat): (r: seq<nat>)
    requires n <= |scores|
    ensures |r| == n && InRange(r, |scores|)
    ensures forall x: nat :: x in r <==> x < n
    ensures Distinct(r) && Descending(scores, r)
  {
    if n == 0 then []
    else
      var prev := SortedIndices(scores, n - 1);
      InsertDescending(scores, n - 1, prev);
      InsertDistinct(scores, n - 1, prev);
      Insert(scores, n - 1, prev)
  }

  function Min(a: nat, b: nat): nat
  {
    if a < b then a else b
  }

  /** What torch.topk promises of the indices it returns: `k` of them, or
      all when there are fewer, each once, in range, by non-increasing
      score, and none left out scoring above one chosen. Among equal scores
      any order is allowed. */
  ghost predicate IsTopK(scores: seq<real>, k: nat, top: seq<nat>)
  {
    && |top| == Min(k, |scores|) && InRange(top, |scores|)
    && Distinct(top) && Descending(scores, top)
    && (forall c, j :: c in top && 0 <= j < |scores| && j !in top ==> scores[j] <= scores[c])
  }

  /** One choice of top-k indices: a stable sort, lower index first among
      equal scores. The store's contracts only rely on `IsTopK`. */
  function TopK(scores: seq<real>, k: nat): (r: seq<nat>)
    ensures |r| == Min(k, |scores|) && InRange(r, |scores|)
    ensures Distinct(r) && Descending(scores, r)
  {
    SortedIndices(scores, |scores|)[..Min(k, |scores|)]
  }

  /** The stable choice meets what torch.topk promises. */
  lemma TopKMeetsIsTopK(scores: seq<real>, k: nat)
    ensures IsTopK(scores, k, TopK(scores, k))
  {
    TopKIsBest(scores, k);
  }

  /** No index left out scores above one chosen. */
  lemma TopKIsBest(scores: seq<real>, k: nat)
    ensures var r := TopK(scores, k);
      forall c, j :: c in r && 0 <= j < |scores| && j !in r ==> scores[j] <= scores[c]
  {
    var all := SortedIndices(scores, |scores|);
    var m := Min(k, |scores|);
    var r := all[..m];
    forall c, j | c in r && 0 <= j < |scores| && j !in r
      ensures scores[j] <= scores[c]
    {
      var q :| 0 <= q < m && r[q] == c;
      assert j in all;
      var p :| 0 <= p < |all| && all[p] == j;
      assert p >= m;
    }
  }

  // ---------------------------------------------------------------------
  // The store

  /** One search hit; `fullInfo` is None where the source falls back to an
      empty record. */
  datatype SearchResult = SearchResult(symbol: string, metadata: Metadata, relevanceScore: real, fullInfo: Option<EtfInfo>)

  /** Why context assembly stops: a hit whose symbol is not in the
      knowledge base has no fields to read. */
  datatype ContextError = MissingField(symbol: string)

  const ContextHeader: string := "Here are some relevant ETFs that might help answer the user's question:\n"

  /** The block for one hit, without live data. */
  function KnowledgeBlock(symbol: string, info: EtfInfo): string
  {
    "\n**" + symbol + " - " + info.simpleName + "**\n"
    + "- Category: " + info.category + "\n"
    + "- Risk: " + info.riskLevel + "\n"
    + "- Explanation: " + info.beginnerExplanation + "\n"
    + "- Good for: " + info.goodFor + "\n"
    + "- Why beginners love it: " + info.whyBeginnersLoveIt + "\n"
    + "- Example: " + info.realWorldExample + "\n"
  }

  /** The block for one hit: the knowledge block, followed by the live text
      when it is wanted and could be produced. */
  function Block(symbol: string, info: EtfInfo, includeLiveData: bool, live: string -> Option<string>): string
  {
    var base := KnowledgeBlock(symbol, info);
    if includeLiveData && live(symbol).Some? then base + "\n" + live(symbol).value + "\n" else base
  }

  /** The blocks of all hits, in order, or the first missing entry. */
  function Blocks(results: seq<SearchResult>, includeLiveData: bool, live: string -> Option<string>)
    : (r: Result<seq<string>, ContextError>)
    ensures r.Success? <==> forall p :: 0 <= p < |results| ==> results[p].fullInfo.Some?
    ensures r.Success? ==> |r.value| == |results|
    ensures r.Success? ==> forall p :: 0 <= p < |results| ==>
      r.value[p] == Block(results[p].symbol, results[p].fullInfo.value, includeLiveData, live)
  {
    if results == [] then Success([])
    else
      var prev := Blocks(results[..|results| - 1], includeLiveData, live);
      var last := results[|results| - 1];
      if prev.Failure? then prev
      else if last.fullInfo.None? then Failure(MissingField(last.symbol))
      else Success(prev.value + [Block(last.symbol, last.fullInfo.value, includeLiveData, live)])
  }

  /** A live block never loses the knowledge block it extends. */
  lemma BlockKeepsKnowledge(symbol: string, info: EtfInfo, includeLiveData: bool, live: string -> Option<string>)
    ensures var b := Block(symbol, info, includeLiveData, live);
      var base := KnowledgeBlock(symbol, info);
      |base| <= |b| && b[..|base|] == base
  {
  }

  /** get_context_for_query from its hits. */
  function Context(results: seq<SearchResult>, includeLiveData: bool, live: string -> Option<string>)
    : Result<string, ContextError>
  {
    if results == [] then Success("")
    else
      match Blocks(results, includeLiveData, live)
      case Failure(e) => Failure(e)
      case Success(blocks) => Success(Text.Join("\n", [ContextHeader] + blocks))
  }

  /** The context is empty exactly when there are no hits; otherwise it
      opens with the header, and it fails only on a hit with no entry,
      whatever live data does. */
  lemma ContextShape(results: seq<SearchResult>, includeLiveData: bool, live: string -> Option<string>)
    ensures var c := Context(results, includeLiveData, live);
      && (c == Success("") <==> results == [])
      && (c.Failure? <==> exists p :: 0 <= p < |results| && results[p].fullInfo.None?)
      && (c.Success? && results != [] ==>
            |ContextHeader| <= |c.value| && c.value[..|ContextHeader|] == ContextHeader)
  {
    if results != [] {
      var blocks := Blocks(results, includeLiveData, live);
      if blocks.Success? {
        var parts := [ContextHeader] + blocks.value;
        assert parts[1..] == blocks.value;
        assert Text.Join("\n", parts) == ContextHeader + "\n" + Text.Join("\n", blocks.value);
      }
    }
  }

  class ETFVectorStore {
    /** The knowledge base the store indexes. */
    const kb: KnowledgeBase
    /** The file the index is saved to and loaded from. */
    const cacheFile: ArtifactFile
    var documents: seq<string>
    var embeddings: seq<Embedding>
    var metadata: seq<Metadata>

    /** What the store holds, as the artifact it saves. */
    function Contents(): Artifact
      reads this
    {
      Artifact(documents, embeddings, metadata)
    }

    /** The parallel sequences line up. */
    predicate Valid()
      reads this
    {
      Aligned(Contents())
    }

    /** __init__: the saved index if the file has one, otherwise a new
        index built from the knowledge base and saved. */
    constructor (kb: KnowledgeBase, cacheFile: ArtifactFile, encoder: Encoder)
      modifies cacheFile
      ensures this.kb == kb && this.cacheFile == cacheFile
      ensures old(cacheFile.saved).Some? ==>
        && cacheFile.saved == old(cacheFile.saved)
        && Artifact(documents, embeddings, metadata) == old(cacheFile.saved).value
      ensures old(cacheFile.saved).Some? ==> (Valid() <==> Aligned(old(cacheFile.saved).value))
      ensures old(cacheFile.saved).None? ==>
        && Valid() && BuiltFrom(Contents(), kb, encoder)
        && cacheFile.saved == Some(Contents())
    {
      this.kb := kb;
      this.cacheFile := cacheFile;
      documents := [];
      embeddings := [];
      metadata := [];
      new;
      if cacheFile.saved.Some? {
        LoadEmbeddings();
      } else {
        CreateEmbeddings(encoder);
      }
    }

    /** _create_embeddings: one document and one metadata record per entry,
        in knowledge-base order, then one embedding per document, then save. */
    method CreateEmbeddings(encoder: Encoder)
      requires documents == [] && metadata == []
      modifies this, cacheFile
      ensures |documents| == |metadata| == |embeddings| == |kb|
      ensures forall i :: 0 <= i < |kb| ==>
        documents[i] == DocText(kb[i]) && metadata[i] == MetadataOf(kb[i])
        && embeddings[i] == encoder(documents[i])
      ensures cacheFile.saved == Some(Artifact(documents, embeddings, metadata))
      ensures Valid() && BuiltFrom(Contents(), kb, encoder)
    {
      for i := 0 to |kb|
        invariant |documents| == |metadata| == i
        invariant forall j :: 0 <= j < i ==> documents[j] == DocText(kb[j]) && metadata[j] == MetadataOf(kb[j])
      {
        documents := documents + [DocText(kb[i])];
        metadata := metadata + [MetadataOf(kb[i])];
      }
      var docs := documents;
      embeddings := seq(|docs|, i requires 0 <= i < |docs| => encoder(docs[i]));
      cacheFile.Save(Artifact(documents, embeddings, metadata));
    }

    /** _load_embeddings */
    method LoadEmbeddings()
      requires cacheFile.saved.Some?
      modifies this
      ensures Artifact(documents, embeddings, metadata) == cacheFile.saved.value
    {
      var a := cacheFile.Load();
      documents := a.documents;
      embeddings := a.embeddings;
      metadata := a.metadata;
    }

    /** search, given the cosine score of the query against each embedding:
        the top `nResults` hits by score, each with its metadata and its
        knowledge-base entry if there is one. */
    method Search(scores: seq<real>, nResults: nat) returns (results: seq<SearchResult>)
      requires Valid() && |scores| == |embeddings|
      ensures |results| == Min(nResults, |scores|)
      ensures forall p, q :: 0 <= p < q < |results| ==> results[p].relevanceScore >= results[q].relevanceScore
      ensures exists top ::
        && IsTopK(scores, nResults, top) && |top| == |results|
        && (forall p :: 0 <= p < |results| ==> results[p] == HitAt(scores, top[p]))
    {
      var top := TopK(scores, nResults);
      TopKMeetsIsTopK(scores, nResults);
      results := [];
      for p := 0 to |top|
        invariant |results| == p
        invariant forall q :: 0 <= q < p ==> results[q] == HitAt(scores, top[q])
      {
        var idx := top[p];
        var symbol := metadata[idx].symbol;
        results := results + [SearchResult(symbol, metadata[idx], scores[idx], Find(kb, symbol))];
      }
    }

    /** The hit for the `i`-th document. */
    function HitAt(scores: seq<real>, i: nat): (h: SearchResult)
      reads this
      requires Valid() && |scores| == |embeddings| && i < |scores|
      ensures h.symbol == metadata[i].symbol && h.relevanceScore == scores[i]
      ensures h.fullInfo == Find(kb, metadata[i].symbol)
    {
      SearchResult(metadata[i].symbol, metadata[i], scores[i], Find(kb, metadata[i].symbol))
    }

    /** get_context_for_query, given the query's scores and the live text
        for a symbol (None when fetching or formatting it raised). */
    method GetContextForQuery(scores: seq<real>, nResults: nat, includeLiveData: bool, live: string -> Option<string>)
      returns (r: Result<string, ContextError>)
      requires Valid() && |scores| == |embeddings|
      ensures exists results: seq<SearchResult>, top ::
        && IsTopK(scores, nResults, top) && |top| == |results|
        && (forall p :: 0 <= p < |results| ==> results[p] == HitAt(scores, top[p]))
        && r == Context(results, includeLiveData, live)
    {
      var results := Search(scores, nResults);
      r := AssembleContext(results, includeLiveData, live);
    }
  }

  /** The loop of get_context_for_query over the hits. */
  method AssembleContext(results: seq<SearchResult>, includeLiveData: bool, live: string -> Option<string>)
    returns (r: Result<string, ContextError>)
    ensures r == Context(results, includeLiveData, live)
  {
    if results == [] {
      return Success("");
    }
    var parts := [ContextHeader];
    ghost var blocks: seq<string> := [];
    assert results[..0] == [];
    for p := 0 to |results|
      invariant parts == [ContextHeader] + blocks
      invariant Blocks(results[..p], includeLiveData, live) == Success(blocks)
    {
      assert results[..p + 1][..p] == results[..p];
      var symbol := results[p].symbol;
      if results[p].fullInfo.None? {
        BlocksFailureSticks(results, p + 1, includeLiveData, live);
        return Failure(MissingField(symbol));
      }
      var info := results[p].fullInfo.value;
      var part := KnowledgeBlock(symbol, info);
      if includeLiveData {
        var liveInfo := live(symbol);
        if liveInfo.Some? {
          part := part + "\n" + liveInfo.value + "\n";
        }
      }
      assert part == Block(symbol, info, includeLiveData, live);
      BlocksStep(results, p, blocks, includeLiveData, live);
      parts := parts + [part];
      blocks := blocks + [part];
    }
    assert results[..|results|] == results;
    r := Success(Text.Join("\n", parts));
  }

  /** One more hit with an entry adds its block to the successful blocks before it. */
  lemma BlocksStep(results: seq<SearchResult>, p: nat, prev: seq<string>, includeLiveData: bool, live: string -> Option<string>)
    requires p < |results| && results[p].fullInfo.Some?
    requires Blocks(results[..p], includeLiveData, live) == Success(prev)
    ensures Blocks(results[..p + 1], includeLiveData, live)
      == Success(prev + [Block(results[p].symbol, results[p].fullInfo.value, includeLiveData, live)])
  {
    assert results[..p + 1][..p] == results[..p];
  }

  /** Once a prefix of the hits fails, so do all the hits, with the same error. */
  lemma {:induction false} BlocksFailureSticks(results: seq<SearchResult>, n: nat, includeLiveData: bool, live: string -> Option<string>)
    requires n <= |results| && Blocks(results[..n], includeLiveData, live).Failure?
    ensures Blocks(results, includeLiveData, live) == Blocks(results[..n], includeLiveData, live)
    decreases |results| - n
  {
    if n < |results| {
      assert results[..n + 1][..n] == results[..n];
      BlocksFailureSticks(results, n + 1, includeLiveData, live);
    } else {
      assert results[..n] == results;
    }
  }

  /** A freshly built store never hits the missing-entry path: each
      document's symbol is in the knowledge base, and with unique symbols
      its entry is the one the document was built from. */
  lemma BuiltStoreFindsEveryHit(kb: KnowledgeBase, i: nat)
    requires i < |kb|
    ensures Find(kb, MetadataOf(kb[i]).symbol).Some?
    ensures UniqueSymbols(kb) ==> Find(kb, MetadataOf(kb[i]).symbol) == Some(kb[i].info)
  {
  }

  /** get_vector_store: the one shared store, built on first use. */
  class StoreHolder {
    var store: ETFVectorStore?

    constructor ()
      ensures store == null
    {
      store := null;
    }

    method GetVectorStore(kb: KnowledgeBase, cacheFile: ArtifactFile, encoder: Encoder) returns (s: ETFVectorStore)
      modifies this, cacheFile
      ensures old(store) != null ==> s == old(store) && unchanged(cacheFile)
      ensures old(store) == null ==> fresh(s) && s.kb == kb && s.cacheFile == cacheFile
      ensures old(store) == null && old(cacheFile.saved).Some? ==>
        && s.Contents() == old(cacheFile.saved).value && cacheFile.saved == old(cacheFile.saved)
        && (s.Valid() <==> Aligned(old(cacheFile.saved).value))
      ensures old(store) == null && old(cacheFile.saved).None? ==>
        && s.Valid() && BuiltFrom(s.Contents(), kb, encoder)
        && cacheFile.saved == Some(s.Contents())
      ensures store == s
    {
      if store == null {
        store := new ETFVectorStore(kb, cacheFile, encoder);
      }
      s := store;
    }
  }
}
