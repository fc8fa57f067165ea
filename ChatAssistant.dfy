/** The chat panel (components/ChatAssistant.tsx): the message list, the input box and the
    loading flag, driven by the four modes. A send completes its awaited service call inside
    one method; the services' results come in as `Replies`. */
module ChatAssistant {
  import opened Wrappers
  import opened Seqs
  import opened Ecma
  import opened Types
  import opened GeminiService
  import SiteContent

  /** `ChatMode`. */
  datatype ChatMode = QuickChat | MarketNews | LocalSearch | GenerateDescription

  const IntroId := "intro"
  const NoLocationText := "I need your location to perform a local search. Please enable location services."
  const NoSuchPropertyText := "Sorry, I couldn't find a property with that ID. Please enter a valid property ID."

  const QuickChatIntro := "Hi there! How can I help you with your real estate journey in India today?"
  const MarketNewsIntro :=
    "Ready to dive into the latest market news? Ask me about trends, prices, or new developments across India."
  const LocalSearchIntro :=
    "I can help you find properties and amenities in your Indian locality. What are you looking for?"
  const LocationErrorLead := "I can help you find places nearby. "
  const DescriptionIntro :=
    "I can help you write a professional property description. Just enter the ID of one of the featured properties."

  /** `modeDetails[mode].intro`; the Local Search text depends on the geolocation error. */
  function Intro(mode: ChatMode, locationError: Option<string>): (text: string)
    ensures mode == LocalSearch && TruthyText(locationError) ==> text == LocationErrorLead + locationError.value
    ensures mode == LocalSearch && !TruthyText(locationError) ==> text == LocalSearchIntro
  {
    match mode
    case QuickChat => QuickChatIntro
    case MarketNews => MarketNewsIntro
    case LocalSearch => if TruthyText(locationError) then LocationErrorLead + locationError.value else LocalSearchIntro
    case GenerateDescription => DescriptionIntro
  }

  /** The list the intro effect installs. */
  function IntroMessages(mode: ChatMode, locationError: Option<string>): (ms: seq<ChatMessage>) {
    [ChatMessage(IntroId, Model, Intro(mode, locationError), None)]
  }

  /** The user's message, stamped with `Date.now()`: it carries the typed text, no sources,
      and an id that is never the intro's. */
  function UserMessage(now: int, text: string): (m: ChatMessage)
    ensures m.role == User && m.text == text && m.sources.None?
    ensures m.id != IntroId
  {
    ClockIdIsNotIntro(now);
    ChatMessage(ShowInt(now), User, text, None)
  }

  /** A reply, with the id `(Date.now() + 1).toString()`, which is never the intro's. */
  function ModelMessage(later: int, text: string, sources: Option<seq<GroundingSource>>): (m: ChatMessage)
    ensures m.role == Model && m.text == text && m.sources == sources
    ensures m.id != IntroId
  {
    ClockIdIsNotIntro(later + 1);
    ChatMessage(ShowInt(later + 1), Model, text, sources)
  }

  /** The two clock readings of a send give the user message and the reply different ids
      whenever the clock does not run backwards. */
  lemma MessageIdsDiffer(now: int, later: int)
    requires now <= later
    ensures ShowInt(now) != ShowInt(later + 1)
  {
    if ShowInt(now) == ShowInt(later + 1) {
      ShowIntInjective(now, later + 1);
    }
  }

  /** No clock reading renders as the intro message's id. */
  lemma ClockIdIsNotIntro(t: int)
    ensures ShowInt(t) != IntroId
  {
    assert IntroId[0] == 'i';
    if t >= 0 {
      assert IsRadixDigit(ShowNat(t)[0], 10);
    }
  }

  // ---------------------------------------------------------------------------
  // Streaming into one message

  /** `prev.map(m => m.id === modelMessageId ? { ...m, text: m.text + chunk } : m)`. */
  function AppendChunk(ms: seq<ChatMessage>, id: string, chunk: string): (r: seq<ChatMessage>)
    ensures |r| == |ms|
    ensures forall i :: 0 <= i < |ms| ==> r[i] == if ms[i].id == id then ms[i].(text := ms[i].text + chunk) else ms[i]
  {
    Map(ms, (m: ChatMessage) => if m.id == id then m.(text := m.text + chunk) else m)
  }

  /** The list after each chunk's update has been applied, in order. Only texts change: the
      list keeps its length, and every message its id, role and sources. */
  function StreamInto(ms: seq<ChatMessage>, id: string, chunks: seq<string>): (r: seq<ChatMessage>)
    ensures |r| == |ms|
    ensures forall i :: 0 <= i < |ms| ==> r[i].id == ms[i].id && r[i].role == ms[i].role && r[i].sources == ms[i].sources
    decreases |chunks|
  {
    if chunks == [] then ms
    else AppendChunk(StreamInto(ms, id, chunks[..|chunks| - 1]), id, chunks[|chunks| - 1])
  }

  /** The chunks joined in order. */
  function Concat(chunks: seq<string>): (text: string)
    decreases |chunks|
  {
    if chunks == [] then "" else Concat(chunks[..|chunks| - 1]) + chunks[|chunks| - 1]
  }

  /** Streaming touches only the messages with the given id, and each of those ends with all
      the chunks appended in order; no message is added, dropped or reordered. */
  lemma {:induction false} StreamIntoSpec(ms: seq<ChatMessage>, id: string, chunks: seq<string>)
    ensures |StreamInto(ms, id, chunks)| == |ms|
    ensures forall i :: 0 <= i < |ms| ==>
      (StreamInto(ms, id, chunks)[i] == if ms[i].id == id then ms[i].(text := ms[i].text + Concat(chunks)) else ms[i])
    decreases |chunks|
  {
    if chunks != [] {
      var front := chunks[..|chunks| - 1];
      var last := chunks[|chunks| - 1];
      StreamIntoSpec(ms, id, front);
      forall i | 0 <= i < |ms| && ms[i].id == id
        ensures StreamInto(ms, id, chunks)[i] == ms[i].(text := ms[i].text + Concat(chunks))
      {
        assert StreamInto(ms, id, chunks)[i].text == ms[i].text + Concat(front) + last;
        assert ms[i].text + Concat(front) + last == ms[i].text + Concat(chunks);
      }
    }
  }

  /** One position of `QuickChatTranscript`. */
  lemma QuickChatTranscriptAt(ms: seq<ChatMessage>, user: ChatMessage, modelId: string, chunks: seq<string>, i: int)
    requires forall i :: 0 <= i < |ms| ==> ms[i].id != modelId
    requires user.id != modelId
    requires 0 <= i < |ms| + 2
    ensures |StreamInto(ms + [user, ChatMessage(modelId, Model, "", None)], modelId, chunks)| == |ms| + 2
    ensures StreamInto(ms + [user, ChatMessage(modelId, Model, "", None)], modelId, chunks)[i] ==
      (ms + [user, ChatMessage(modelId, Model, Concat(chunks), None)])[i]
  {
    var reply := ChatMessage(modelId, Model, "", None);
    var before := ms + [user, reply];
    StreamIntoSpec(before, modelId, chunks);
    if i < |ms| {
      assert before[i] == ms[i];
    } else if i == |ms| {
      assert before[i] == user;
    } else {
      assert before[i] == reply;
      assert reply.text + Concat(chunks) == Concat(chunks);
    }
  }

  /** In a list where only the new, empty reply carries its id, streaming leaves every other
      message as it was and gives the reply the concatenated chunks. */
  lemma QuickChatTranscript(ms: seq<ChatMessage>, user: ChatMessage, modelId: string, chunks: seq<string>)
    requires forall i :: 0 <= i < |ms| ==> ms[i].id != modelId
    requires user.id != modelId
    ensures StreamInto(ms + [user, ChatMessage(modelId, Model, "", None)], modelId, chunks) ==
      ms + [user, ChatMessage(modelId, Model, Concat(chunks), None)]
  {
    var r := StreamInto(ms + [user, ChatMessage(modelId, Model, "", None)], modelId, chunks);
    var after := ms + [user, ChatMessage(modelId, Model, Concat(chunks), None)];
    QuickChatTranscriptAt(ms, user, modelId, chunks, 0);
    forall i | 0 <= i < |after|
      ensures r[i] == after[i]
    {
      QuickChatTranscriptAt(ms, user, modelId, chunks, i);
    }
  }

  // ---------------------------------------------------------------------------
  // Generate Description

  /** `properties.find(p => p.id === propertyId)`: the first listing with that id; NaN equals
      no id. */
  function FindById(ps: seq<Property>, propertyId: Num): (r: Option<Property>)
    ensures r.Some? ==> r.value in ps && propertyId == Finite(r.value.id)
    ensures r.Some? ==>
      exists k :: 0 <= k < |ps| && ps[k] == r.value && (forall j :: 0 <= j < k ==> propertyId != Finite(ps[j].id))
    ensures r.None? <==> forall i :: 0 <= i < |ps| ==> propertyId != Finite(ps[i].id)
  {
    match FindIndex(ps, (p: Property) => propertyId == Finite(p.id))
    case Some(k) => Some(ps[k])
    case None => None
  }

  /** With unique ids, looking up a listing's id finds that listing. */
  lemma FindByIdUnique(ps: seq<Property>, i: int)
    requires UniqueIds(ps) && 0 <= i < |ps|
    ensures FindById(ps, Finite(ps[i].id)) == Some(ps[i])
  {
    var k := FindIndex(ps, (p: Property) => Finite(ps[i].id) == Finite(p.id));
    assert k.Some?;
  }

  /** `prompt` is the decimal numeral of `id` followed by `rest`, which does not start with a
      digit. */
  predicate TypedId(id: nat, rest: string, prompt: string) {
    prompt == ShowNat(id) + rest && (rest == [] || !IsDigit(rest[0]))
  }

  /** Typing a listing's id, optionally followed by text that does not start with a digit,
      finds the listing. */
  lemma TypedIdFindsListing(ps: seq<Property>, i: int, rest: string)
    requires UniqueIds(ps) && 0 <= i < |ps| && ps[i].id >= 0
    requires rest == [] || !IsDigit(rest[0])
    ensures FindById(ps, ParseInt(ShowNat(ps[i].id) + rest, Decimal)) == Some(ps[i])
  {
    ParseDecimalPrefix(ShowNat(ps[i].id), rest);
    RadixValueShowNat(ps[i].id);
    FindByIdUnique(ps, i);
  }

  /** The catalog's ids are 1 to 8, in order. */
  lemma CatalogIds()
    ensures |SiteContent.Properties| == 8
    ensures forall i :: 0 <= i < 8 ==> SiteContent.Properties[i].id == i + 1
  {
  }

  /** Ids 1 to 8 find their listing; every other integer finds none, and gets the apology. */
  lemma CatalogLookup(n: int)
    ensures 1 <= n <= 8 ==> FindById(SiteContent.Properties, Finite(n)) == Some(SiteContent.Properties[n - 1])
    ensures !(1 <= n <= 8) ==> FindById(SiteContent.Properties, Finite(n)) == None
  {
    var ps := SiteContent.Properties;
    CatalogIds();
    assert UniqueIds(ps);
    if 1 <= n <= 8 {
      FindByIdUnique(ps, n - 1);
    }
  }

  /** The reply of Market News, Local Search and Generate Description: its text, and its
      sources when the mode shows any. Market News and Local Search show the service's answer
      and sources; Local Search without a location shows the geolocation error, or a default
      request for it; Generate Description looks the typed id up in `catalog` and shows the
      generated description, or an apology when no listing has that id. */
  function Reply(mode: ChatMode, catalog: seq<Property>, prompt: string, location: Option<Coordinates>,
                 locationError: Option<string>, replies: Replies): (reply: (string, Option<seq<GroundingSource>>))
    ensures mode == MarketNews ==>
      reply == (GeminiService.MarketNews(replies.news).text, Some(GeminiService.MarketNews(replies.news).sources))
    ensures mode == MarketNews ==>
      forall i :: 0 <= i < |reply.1.value| ==> reply.1.value[i].sourceType == Web
    ensures mode == LocalSearch && location.Some? ==>
      reply == (LocalInfo(replies.local).text, Some(LocalInfo(replies.local).sources))
    ensures mode == LocalSearch && location.Some? ==>
      forall i :: 0 <= i < |reply.1.value| ==> reply.1.value[i].sourceType == Maps
    ensures mode == LocalSearch && location.None? ==>
      reply == (if TruthyText(locationError) then locationError.value else NoLocationText, None)
    ensures mode == GenerateDescription ==>
      reply.1.None? &&
      reply.0 == (if FindById(catalog, ParseInt(prompt, Decimal)).Some? then PropertyDescription(replies.description)
                  else NoSuchPropertyText)
  {
    match mode
    case QuickChat => ("", None)
    case MarketNews =>
      var answer := GeminiService.MarketNews(replies.news);
      (answer.text, Some(answer.sources))
    case LocalSearch =>
      if location.None? then
        (if TruthyText(locationError) then locationError.value else NoLocationText, None)
      else
        var answer := LocalInfo(replies.local);
        (answer.text, Some(answer.sources))
    case GenerateDescription =>
      var property := FindById(catalog, ParseInt(prompt, Decimal));
      (if property.Some? then PropertyDescription(replies.description) else NoSuchPropertyText, None)
  }

  /** Typing a listing's id (digits, then anything that does not start with a digit) gets that
      listing's generated description; a prompt that does not parse to any listed id gets the
      apology, whatever the service would have said. */
  lemma DescriptionReply(ps: seq<Property>, prompt: string, replies: Replies, location: Option<Coordinates>,
                         locationError: Option<string>)
    requires UniqueIds(ps)
    ensures (exists i, rest :: 0 <= i < |ps| && ps[i].id >= 0 && TypedId(ps[i].id, rest, prompt)) ==>
      Reply(GenerateDescription, ps, prompt, location, locationError, replies) ==
        (PropertyDescription(replies.description), None)
    ensures FindById(ps, ParseInt(prompt, Decimal)).None? ==>
      Reply(GenerateDescription, ps, prompt, location, locationError, replies) == (NoSuchPropertyText, None)
  {
    if exists i, rest :: 0 <= i < |ps| && ps[i].id >= 0 && TypedId(ps[i].id, rest, prompt) {
      var i, rest :| 0 <= i < |ps| && ps[i].id >= 0 && TypedId(ps[i].id, rest, prompt);
      TypedIdFindsListing(ps, i, rest);
    }
  }

  // ---------------------------------------------------------------------------
  // The panel

  /** What the awaited services deliver on a send, one field per mode: the quick-chat stream
      (and the session `ai.chats.create` would open), and the outcome of the model call
      behind `fetchMarketNews`, `fetchLocalInfo` and `generatePropertyDescription`. */
  datatype Replies = Replies(
    stream: ChatStream,
    session: ChatHandle,
    news: Call<GenerateResponse>,
    local: Call<GenerateResponse>,
    description: Call<GenerateResponse>)

  /** `!input.trim() || isLoading`: a send is ignored exactly when the input is all
      whitespace or a reply is still loading. */
  predicate Ignored(input: string, isLoading: bool): (ignored: bool)
    ensures ignored <==> IsBlank(input) || isLoading
  {
    TrimEmptyIffBlank(input);
    Trim(input) == "" || isLoading
  }

  class ChatPanel {
    /** `SITE_CONTENT.properties`, where Generate Description looks ids up. */
    const catalog: seq<Property>
    var messages: seq<ChatMessage>
    var input: string
    var isLoading: bool
    var mode: ChatMode
    /** The `isOpen` prop. */
    var isOpen: bool

    /** Mounting: empty state in Quick Chat mode; the intro effect runs at once if the panel
        mounts open. */
    constructor (open: bool, locationError: Option<string>)
      ensures catalog == SiteContent.Properties
      ensures input == "" && !isLoading && mode == QuickChat && isOpen == open
      ensures messages == if open then IntroMessages(QuickChat, locationError) else []
    {
      catalog := SiteContent.Properties;
      input := "";
      isLoading := false;
      mode := QuickChat;
      isOpen := open;
      messages := if open then IntroMessages(QuickChat, locationError) else [];
    }

    /** A new `isOpen` prop: when it changes and the panel is now open, the intro effect
        replaces the whole list by the current mode's intro. Closing keeps the list. */
    method SetIsOpen(open: bool, locationError: Option<string>)
      modifies this
      ensures isOpen == open
      ensures open && !old(isOpen) ==> messages == IntroMessages(mode, locationError)
      ensures !(open && !old(isOpen)) ==> messages == old(messages)
      ensures input == old(input) && isLoading == old(isLoading) && mode == old(mode)
    {
      if open != isOpen {
        isOpen := open;
        if open {
          messages := IntroMessages(mode, locationError);
        }
      }
    }

    /** A mode button: a different mode re-runs the intro effect when the panel is open. */
    method SetMode(m: ChatMode, locationError: Option<string>)
      modifies this
      ensures mode == m
      ensures m != old(mode) && isOpen ==> messages == IntroMessages(m, locationError)
      ensures !(m != old(mode) && isOpen) ==> messages == old(messages)
      ensures input == old(input) && isLoading == old(isLoading) && isOpen == old(isOpen)
    {
      if m != mode {
        mode := m;
        if isOpen {
          messages := IntroMessages(m, locationError);
        }
      }
    }

    /** The input box's `onChange`. */
    method SetInput(text: string)
      modifies this
      ensures input == text
      ensures messages == old(messages) && isLoading == old(isLoading) && mode == old(mode) && isOpen == old(isOpen)
    {
      input := text;
    }

    /** The Quick Chat branch: an empty reply is appended and each streamed chunk is appended
        to its text as it arrives. */
    method StreamReply(client: GeminiClient, prompt: string, modelId: string, replies: Replies)
      modifies this, client
      ensures messages == StreamInto(old(messages) + [ChatMessage(modelId, Model, "", None)], modelId,
                                     QuickChatOutput(replies.stream))
      ensures client.quickChatInstance ==
        Some(if old(client.quickChatInstance).Some? then old(client.quickChatInstance).value else replies.session)
      ensures input == old(input) && isLoading == old(isLoading) && mode == old(mode) && isOpen == old(isOpen)
    {
      messages := messages + [ChatMessage(modelId, Model, "", None)];
      var base := messages;
      var chunks := client.StreamQuickChat(prompt, replies.stream, replies.session);
      var k := 0;
      while k < |chunks|
        invariant 0 <= k <= |chunks|
        invariant messages == StreamInto(base, modelId, chunks[..k])
        invariant input == old(input) && isLoading == old(isLoading) && mode == old(mode) && isOpen == old(isOpen)
        invariant client.quickChatInstance ==
          Some(if old(client.quickChatInstance).Some? then old(client.quickChatInstance).value else replies.session)
      {
        assert chunks[..k + 1][..k] == chunks[..k];
        messages := AppendChunk(messages, modelId, chunks[k]);
        k := k + 1;
      }
      assert chunks[..k] == chunks;
    }

    /** The other modes' branch: the awaited reply is appended as one message. */
    method AppendReply(prompt: string, modelId: string, location: Option<Coordinates>, locationError: Option<string>,
                       replies: Replies)
      modifies this
      ensures var m := Reply(mode, catalog, prompt, location, locationError, replies);
        messages == old(messages) + [ChatMessage(modelId, Model, m.0, m.1)]
      ensures input == old(input) && isLoading == old(isLoading) && mode == old(mode) && isOpen == old(isOpen)
    {
      var m := Reply(mode, catalog, prompt, location, locationError, replies);
      messages := messages + [ChatMessage(modelId, Model, m.0, m.1)];
    }

    /** A send that passed the guard: the user's message is appended, the input cleared, the
        mode's reply appended and loading ends. */
    method Dispatch(client: GeminiClient, now: int, later: int, location: Option<Coordinates>,
                    locationError: Option<string>, replies: Replies)
      modifies this, client
      ensures input == "" && !isLoading
      ensures mode == old(mode) && isOpen == old(isOpen)
      ensures mode != QuickChat ==> client.quickChatInstance == old(client.quickChatInstance)
      ensures mode == QuickChat ==>
        messages == StreamInto(old(messages) + [UserMessage(now, old(input)), ModelMessage(later, "", None)],
                               ShowInt(later + 1), QuickChatOutput(replies.stream))
      ensures mode == QuickChat ==>
        client.quickChatInstance ==
          Some(if old(client.quickChatInstance).Some? then old(client.quickChatInstance).value else replies.session)
      ensures mode != QuickChat ==>
        var m := Reply(mode, catalog, old(input), location, locationError, replies);
        messages == old(messages) + [UserMessage(now, old(input)), ModelMessage(later, m.0, m.1)]
    {
      var userMessage := UserMessage(now, input);
      var prompt := input;
      messages := messages + [userMessage];
      input := "";
      isLoading := true;
      var modelMessageId := ShowInt(later + 1);
      if mode == QuickChat {
        assert messages + [ChatMessage(modelMessageId, Model, "", None)] ==
          old(messages) + [UserMessage(now, old(input)), ModelMessage(later, "", None)];
        StreamReply(client, prompt, modelMessageId, replies);
      } else {
        AppendReply(prompt, modelMessageId, location, locationError, replies);
      }
      isLoading := false;
    }

    /** `handleSendMessage`. `now` and `later` are the two `Date.now()` readings, `location`
        and `locationError` the geolocation hook's values. A blank input or a send in progress
        is ignored; otherwise the send goes through `Dispatch`. */
    method SendMessage(client: GeminiClient, now: int, later: int, location: Option<Coordinates>,
                       locationError: Option<string>, replies: Replies) returns (sent: bool)
      modifies this, client
      ensures sent <==> !Ignored(old(input), old(isLoading))
      ensures !sent ==> messages == old(messages) && input == old(input) && isLoading == old(isLoading)
      ensures sent ==> input == "" && !isLoading
      ensures mode == old(mode) && isOpen == old(isOpen)
      ensures !(sent && mode == QuickChat) ==> client.quickChatInstance == old(client.quickChatInstance)
      ensures sent && mode == QuickChat ==>
        messages == StreamInto(old(messages) + [UserMessage(now, old(input)), ModelMessage(later, "", None)],
                               ShowInt(later + 1), QuickChatOutput(replies.stream))
      ensures sent && mode == QuickChat ==>
        client.quickChatInstance ==
          Some(if old(client.quickChatInstance).Some? then old(client.quickChatInstance).value else replies.session)
      ensures sent && mode != QuickChat ==>
        var m := Reply(mode, catalog, old(input), location, locationError, replies);
        messages == old(messages) + [UserMessage(now, old(input)), ModelMessage(later, m.0, m.1)]
    {
      if Ignored(input, isLoading) {
        return false;
      }
      Dispatch(client, now, later, location, locationError, replies);
      sent := true;
    }
  }

  /** A Quick Chat send into a list none of whose ids is the reply's: the list grows by exactly
      the user's message and one reply holding every streamed chunk, in order (followed by the
      apology when the stream failed). This holds for the first send after the intro, since no
      clock reading renders as the intro's id (`ClockIdIsNotIntro`). */
  method QuickChatSend(panel: ChatPanel, client: GeminiClient, now: int, later: int, replies: Replies,
                       location: Option<Coordinates>, locationError: Option<string>) returns (sent: bool)
    requires panel.mode == QuickChat && !Ignored(panel.input, panel.isLoading) && now <= later
    requires forall i :: 0 <= i < |panel.messages| ==> panel.messages[i].id != ShowInt(later + 1)
    modifies panel, client
    ensures sent && panel.input == "" && !panel.isLoading
    ensures panel.messages == old(panel.messages) +
      [UserMessage(now, old(panel.input)), ModelMessage(later, Concat(QuickChatOutput(replies.stream)), None)]
  {
    ghost var ms := panel.messages;
    ghost var user := UserMessage(now, panel.input);
    sent := panel.SendMessage(client, now, later, location, locationError, replies);
    MessageIdsDiffer(now, later);
    QuickChatTranscript(ms, user, ShowInt(later + 1), QuickChatOutput(replies.stream));
  }
}
