/** The AI service wrapper (services/geminiService.ts). The model calls themselves are abstract:
    a call's outcome (`Call`) and a chat stream (`ChatStream`) are inputs. What is modelled is
    what the wrapper does with them: the grounding sources it extracts, the fixed fallbacks it
    returns when a call fails, the chunks it forwards, and the lazily created chat handle. */
module GeminiService {
  import opened Wrappers
  import opened Types
  import opened Seqs
  import Ecma

  /** `chunk.web` / `chunk.maps`: a cited page or place. */
  datatype WebRef = WebRef(title: string, uri: string)

  /** One grounding chunk; either reference may be missing. */
  datatype GroundingChunk = GroundingChunk(web: Option<WebRef>, maps: Option<WebRef>)

  datatype GroundingMetadata = GroundingMetadata(groundingChunks: Option<seq<GroundingChunk>>)

  datatype Candidate = Candidate(groundingMetadata: Option<GroundingMetadata>)

  /** The fields of a `generateContent` response that the wrapper reads. */
  datatype GenerateResponse = GenerateResponse(text: string, candidates: Option<seq<Candidate>>)

  /** How an awaited API call settles: with a value, or by throwing. */
  datatype Call<T> = Returned(value: T) | Threw

  /** `{ text, sources }`, what the grounded calls resolve to. */
  datatype Answer = Answer(text: string, sources: seq<GroundingSource>)

  const StreamApology := "Sorry, I encountered an error. Please try again."
  const DescriptionFallback := "Sorry, I couldn't generate a description at this time. Please try again."
  const MarketNewsFallback := "Sorry, I couldn't fetch the latest market news right now. Please try again."
  const LocalInfoFallback :=
    "Sorry, I couldn't find local information right now. Please ensure you've granted location permissions."
  const SmartSuggestionFallback :=
    "Sorry, I couldn't generate a smart suggestion at this time. Please check your query and try again."

  // ---------------------------------------------------------------------------
  // Grounding sources

  /** `response.candidates?.[0]?.groundingMetadata?.groundingChunks || []`. */
  function GroundingChunks(r: GenerateResponse): (chunks: seq<GroundingChunk>)
    ensures r.candidates.None? || r.candidates.value == [] ==> chunks == []
    ensures r.candidates.Some? && r.candidates.value != [] && r.candidates.value[0].groundingMetadata.None? ==> chunks == []
    ensures r.candidates.Some? && r.candidates.value != [] && r.candidates.value[0].groundingMetadata.Some? ==>
      chunks == (if r.candidates.value[0].groundingMetadata.value.groundingChunks.Some?
                 then r.candidates.value[0].groundingMetadata.value.groundingChunks.value else [])
  {
    match r.candidates
    case None => []
    case Some(cs) =>
      if cs == [] then []
      else match cs[0].groundingMetadata
        case None => []
        case Some(md) => match md.groundingChunks
          case None => []
          case Some(chunks) => chunks
  }

  /** The chunk's web reference as a `'web'` source, when it has one. */
  function WebPick(c: GroundingChunk): (src: Option<GroundingSource>) {
    match c.web
    case Some(w) => Some(GroundingSource(w.title, w.uri, Web))
    case None => None
  }

  /** The chunk's maps reference as a `'maps'` source, when it has one. */
  function MapsPick(c: GroundingChunk): (src: Option<GroundingSource>) {
    match c.maps
    case Some(m) => Some(GroundingSource(m.title, m.uri, Maps))
    case None => None
  }

  /** The smart-suggestion mapping: the web reference if there is one, else the maps
      reference, else `null`. */
  function SmartPick(c: GroundingChunk): (src: Option<GroundingSource>) {
    if c.web.Some? then WebPick(c) else MapsPick(c)
  }

  /** Map each chunk through `pick` and drop the `null`s, keeping the order. */
  function SourcesOf(chunks: seq<GroundingChunk>, pick: GroundingChunk -> Option<GroundingSource>): (s: seq<GroundingSource>)
    ensures |s| <= |chunks|
  {
    if chunks == [] then []
    else (match pick(chunks[0]) case Some(src) => [src] case None => []) + SourcesOf(chunks[1..], pick)
  }

  /** When `pick` only ever gives sources of type `t`, every extracted source has type `t`. */
  lemma {:induction false} SourcesOfKind(chunks: seq<GroundingChunk>, pick: GroundingChunk -> Option<GroundingSource>, t: SourceType)
    requires forall c :: pick(c).Some? ==> pick(c).value.sourceType == t
    ensures forall i :: 0 <= i < |SourcesOf(chunks, pick)| ==> SourcesOf(chunks, pick)[i].sourceType == t
  {
    if chunks != [] {
      SourcesOfKind(chunks[1..], pick, t);
      var head := match pick(chunks[0]) case Some(src) => [src] case None => [];
      assert SourcesOf(chunks, pick) == head + SourcesOf(chunks[1..], pick);
    }
  }

  /** The sources kept by `fetchMarketNews`: at most one per chunk, and all of them pages. */
  function WebSources(chunks: seq<GroundingChunk>): (s: seq<GroundingSource>)
    ensures |s| <= |chunks|
    ensures forall i :: 0 <= i < |s| ==> s[i].sourceType == Web
  {
    SourcesOfKind(chunks, WebPick, Web);
    SourcesOf(chunks, WebPick)
  }

  /** The sources kept by `fetchLocalInfo`: at most one per chunk, and all of them places. */
  function MapsSources(chunks: seq<GroundingChunk>): (s: seq<GroundingSource>)
    ensures |s| <= |chunks|
    ensures forall i :: 0 <= i < |s| ==> s[i].sourceType == Maps
  {
    SourcesOfKind(chunks, MapsPick, Maps);
    SourcesOf(chunks, MapsPick)
  }

  /** The sources kept by `getSmartSearchSuggestion`: at most one per chunk. */
  function SmartSources(chunks: seq<GroundingChunk>): (s: seq<GroundingSource>)
    ensures |s| <= |chunks|
  {
    SourcesOf(chunks, SmartPick)
  }

  /** Extraction distributes over concatenation of chunk lists. */
  lemma {:induction false} SourcesOfAppend(a: seq<GroundingChunk>, b: seq<GroundingChunk>, pick: GroundingChunk -> Option<GroundingSource>)
    ensures SourcesOf(a + b, pick) == SourcesOf(a, pick) + SourcesOf(b, pick)
    decreases |a|
  {
    if a == [] {
      assert a + b == b;
    } else {
      assert (a + b)[1..] == a[1..] + b;
      SourcesOfAppend(a[1..], b, pick);
    }
  }

  /** A source is extracted exactly when some chunk maps to it. */
  lemma {:induction false} SourcesOfMembers(chunks: seq<GroundingChunk>, pick: GroundingChunk -> Option<GroundingSource>, src: GroundingSource)
    ensures src in SourcesOf(chunks, pick) <==> exists i :: 0 <= i < |chunks| && pick(chunks[i]) == Some(src)
  {
    if chunks != [] {
      SourcesOfMembers(chunks[1..], pick, src);
      if exists i :: 0 <= i < |chunks| && pick(chunks[i]) == Some(src) {
        var i :| 0 <= i < |chunks| && pick(chunks[i]) == Some(src);
        if i > 0 {
          assert pick(chunks[1..][i - 1]) == Some(src);
        }
      }
      if exists i :: 0 <= i < |chunks[1..]| && pick(chunks[1..][i]) == Some(src) {
        var i :| 0 <= i < |chunks[1..]| && pick(chunks[1..][i]) == Some(src);
        assert pick(chunks[i + 1]) == Some(src);
      }
    }
  }

  /** `.filter(chunk => chunk.web).map(...)`, the way `fetchMarketNews` writes it, extracts the
      same list: every chunk with a web reference, in order, as a `'web'` source. */
  lemma {:induction false} WebSourcesAsFilterMap(chunks: seq<GroundingChunk>)
    ensures WebSources(chunks) ==
      Map(Filter(chunks, (c: GroundingChunk) => c.web.Some?),
          (c: GroundingChunk) => GroundingSource(if c.web.Some? then c.web.value.title else "",
                                                 if c.web.Some? then c.web.value.uri else "", Web))
  {
    if chunks != [] {
      WebSourcesAsFilterMap(chunks[1..]);
    }
  }

  /** The same for `fetchLocalInfo` and the maps references. */
  lemma {:induction false} MapsSourcesAsFilterMap(chunks: seq<GroundingChunk>)
    ensures MapsSources(chunks) ==
      Map(Filter(chunks, (c: GroundingChunk) => c.maps.Some?),
          (c: GroundingChunk) => GroundingSource(if c.maps.Some? then c.maps.value.title else "",
                                                 if c.maps.Some? then c.maps.value.uri else "", Maps))
  {
    if chunks != [] {
      MapsSourcesAsFilterMap(chunks[1..]);
    }
  }

  /** `src` is what the chunk's web reference gives, or, for a chunk without one, what its
      maps reference gives. */
  predicate FromChunk(c: GroundingChunk, src: GroundingSource) {
    || (c.web.Some? && src == GroundingSource(c.web.value.title, c.web.value.uri, Web))
    || (c.web.None? && c.maps.Some? && src == GroundingSource(c.maps.value.title, c.maps.value.uri, Maps))
  }

  /** A smart-suggestion source comes from a chunk's web reference, or from its maps reference
      when it has no web one: the web reference wins. Chunks with neither contribute nothing. */
  lemma SmartSourcesMembers(chunks: seq<GroundingChunk>, src: GroundingSource)
    ensures src in SmartSources(chunks) <==>
      exists i :: 0 <= i < |chunks| && FromChunk(chunks[i], src)
  {
    SourcesOfMembers(chunks, SmartPick, src);
  }

  /** Without maps references the smart sources are the market-news ones; without web
      references they are the local-info ones. */
  lemma {:induction false} SmartSourcesDegenerate(chunks: seq<GroundingChunk>)
    ensures (forall i :: 0 <= i < |chunks| ==> chunks[i].maps.None?) ==> SmartSources(chunks) == WebSources(chunks)
    ensures (forall i :: 0 <= i < |chunks| ==> chunks[i].web.None?) ==> SmartSources(chunks) == MapsSources(chunks)
  {
    if chunks != [] {
      SmartSourcesDegenerate(chunks[1..]);
      assert forall i :: 1 <= i < |chunks| ==> chunks[1..][i - 1] == chunks[i];
    }
  }

  // ---------------------------------------------------------------------------
  // The adapters

  /** `generatePropertyDescription`: the response text, or the fixed fallback. */
  function PropertyDescription(call: Call<GenerateResponse>): (text: string)
    ensures call.Threw? ==> text == DescriptionFallback
    ensures call.Returned? ==> text == call.value.text
  {
    match call
    case Returned(r) => r.text
    case Threw => DescriptionFallback
  }

  /** `fetchMarketNews`. */
  function MarketNews(call: Call<GenerateResponse>): (a: Answer)
    ensures call.Threw? ==> a == Answer(MarketNewsFallback, [])
    ensures call.Returned? ==> a.text == call.value.text && a.sources == WebSources(GroundingChunks(call.value))
    ensures forall i :: 0 <= i < |a.sources| ==> a.sources[i].sourceType == Web
  {
    match call
    case Returned(r) => Answer(r.text, WebSources(GroundingChunks(r)))
    case Threw => Answer(MarketNewsFallback, [])
  }

  /** `fetchLocalInfo`. */
  function LocalInfo(call: Call<GenerateResponse>): (a: Answer)
    ensures call.Threw? ==> a == Answer(LocalInfoFallback, [])
    ensures call.Returned? ==> a.text == call.value.text && a.sources == MapsSources(GroundingChunks(call.value))
    ensures forall i :: 0 <= i < |a.sources| ==> a.sources[i].sourceType == Maps
  {
    match call
    case Returned(r) => Answer(r.text, MapsSources(GroundingChunks(r)))
    case Threw => Answer(LocalInfoFallback, [])
  }

  /** `getSmartSearchSuggestion`. */
  function SmartSuggestion(call: Call<GenerateResponse>): (a: Answer)
    ensures call.Threw? ==> a == Answer(SmartSuggestionFallback, [])
    ensures call.Returned? ==> a.text == call.value.text && a.sources == SmartSources(GroundingChunks(call.value))
    ensures call.Returned? ==> |a.sources| <= |GroundingChunks(call.value)|
  {
    match call
    case Returned(r) => Answer(r.text, SmartSources(GroundingChunks(r)))
    case Threw => Answer(SmartSuggestionFallback, [])
  }

  /** A response without candidates, or whose first candidate has no grounding metadata,
      yields an answer with no sources. */
  lemma UngroundedHasNoSources(r: GenerateResponse)
    requires r.candidates.None? || r.candidates.value == [] || r.candidates.value[0].groundingMetadata.None?
    ensures MarketNews(Returned(r)) == Answer(r.text, [])
    ensures LocalInfo(Returned(r)) == Answer(r.text, [])
    ensures SmartSuggestion(Returned(r)) == Answer(r.text, [])
  {
  }

  /** `userLocationContext`: empty without a location; otherwise a sentence naming both
      coordinates, as rendered by `show` (JavaScript's number formatting is not modelled). */
  function UserLocationContext(location: Option<Coordinates>, show: real -> string): (s: string)
    ensures location.None? <==> s == ""
    ensures location.Some? ==> Ecma.Includes(s, show(location.value.latitude))
    ensures location.Some? ==> Ecma.Includes(s, show(location.value.longitude))
  {
    match location
    case None => ""
    case Some(loc) =>
      var lead := "The user is currently near latitude ";
      var mid := " and longitude ";
      var s := lead + show(loc.latitude) + mid + show(loc.longitude) + ".";
      Ecma.OccursAtIncludes(s, show(loc.latitude), |lead|);
      Ecma.OccursAtIncludes(s, show(loc.longitude), |lead| + |show(loc.latitude)| + |mid|);
      s
  }

  // ---------------------------------------------------------------------------
  // Quick chat

  /** A session returned by `ai.chats.create`; only its identity matters here. */
  datatype ChatHandle = ChatHandle(serial: nat)

  /** What `sendMessageStream` delivers: the text of each chunk yielded, and whether sending
      or reading the stream then threw. Opening the session with `ai.chats.create` is taken
      not to throw. */
  datatype ChatStream = ChatStream(chunks: seq<string>, failed: bool)

  /** The chunks `streamQuickChat` passes to `onChunk`, in order: every chunk received, then
      the apology if the stream failed. */
  function QuickChatOutput(stream: ChatStream): (out: seq<string>)
    ensures |stream.chunks| <= |out| && out[..|stream.chunks|] == stream.chunks
    ensures !stream.failed ==> out == stream.chunks
    ensures stream.failed ==> |out| == |stream.chunks| + 1 && out[|stream.chunks|] == StreamApology
  {
    stream.chunks + (if stream.failed then [StreamApology] else [])
  }

  /** The module-level state: `quickChatInstance`. */
  class GeminiClient {
    var quickChatInstance: Option<ChatHandle>

    constructor ()
      ensures quickChatInstance == None
    {
      quickChatInstance := None;
    }

    /** `getQuickChatInstance`: creates the session on first use (`created` is what
        `ai.chats.create` returns) and hands back the same one ever after. */
    method GetQuickChatInstance(created: ChatHandle) returns (chat: ChatHandle)
      modifies this
      ensures old(quickChatInstance).None? ==> chat == created
      ensures old(quickChatInstance).Some? ==> chat == old(quickChatInstance).value
      ensures quickChatInstance == Some(chat)
    {
      if quickChatInstance.None? {
        quickChatInstance := Some(created);
      }
      chat := quickChatInstance.value;
    }

    /** `streamQuickChat`: forwards each chunk of the session's stream, then the apology if
        it failed. The prompt only goes to the (abstract) stream. */
    method StreamQuickChat(prompt: string, stream: ChatStream, created: ChatHandle) returns (emitted: seq<string>)
      modifies this
      ensures emitted == QuickChatOutput(stream)
      ensures quickChatInstance == Some(if old(quickChatInstance).Some? then old(quickChatInstance).value else created)
    {
      var chat := GetQuickChatInstance(created);
      emitted := [];
      var k := 0;
      while k < |stream.chunks|
        invariant 0 <= k <= |stream.chunks|
        invariant emitted == stream.chunks[..k]
      {
        emitted := emitted + [stream.chunks[k]];
        k := k + 1;
      }
      if stream.failed {
        emitted := emitted + [StreamApology];
      }
    }
  }
}
