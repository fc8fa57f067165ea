# HauselyAi core, modelled in Dafny

HauselyAi is a React site for Indian real estate listings. This project models the deterministic
core of its TypeScript sources:

- the catalog filter engine and filter panel: price extraction, range, bedroom and type tests,
  and the stable featured-first sort;
- the listing map's projection and markers;
- the hero banner's slide step and city-prefix area suggestions;
- the detail page: similar listings, share link, badges and enquiry form;
- the chat panel's message-list state machine;
- the AI service wrapper: grounding-source extraction, fallbacks, the lazily created chat
  session and chunk streaming;
- the page shell's selection state;
- the record types.

One Dafny module per source file:

| module | source |
|---|---|
| `Types` | types.ts |
| `PropertyFilters` | components/PropertyFilters.tsx |
| `PropertyListings` | components/PropertyListings.tsx |
| `MapView` | components/MapView.tsx |
| `Hero` | components/Hero.tsx |
| `PropertyDetail` | components/PropertyDetail.tsx |
| `ChatAssistant` | components/ChatAssistant.tsx |
| `GeminiService` | services/geminiService.ts |
| `App` | App.tsx |
| `SiteContent` | the parts of constants.ts the components read (catalog, slide count, city table) |

Three support modules:

- `Ecma` holds the JavaScript runtime behaviour the code relies on:
  - `parseInt` per section 18.2.5 of ECMA-262, including the `0x` prefix when no radix is given;
  - truthiness, and `<=`/`>=` with NaN and Infinity;
  - `trim`, ASCII `toLowerCase`/`toUpperCase`, `includes`, `startsWith` and `split('?')[0]`;
  - integer `toString`.
- `Seqs` holds `filter`, `map`, `find` and `slice`.
- `Wrappers` holds `Option`.

`types.ts` has no parsers. The `Parse*` functions in `Types`, with their round-trip lemmas,
only pin down each string union: they recognise exactly the union's strings.

A JavaScript number is `Num = NaN | Finite(int) | PosInfinity`. The coordinates of the map are
`real`.

Components whose state changes step by step are classes:

- `ListingsState`, `HeroState`, `EnquiryForm`, `ChatPanel` and `AppState`;
- `GeminiClient`, which holds the module-level `quickChatInstance`.

Each class has `modifies` clauses and states its whole new state. Expression chains are
functions, with lemmas about them.

## How the code differs from a clean reading

The model follows the code in each of these cases:

- **Digitless prices.** A price text with no digit extracts to `parseInt('') = NaN`, not 0.
- **The empty max bound.** An empty `priceMax` becomes `Infinity`, which is truthy. Since
  `NaN <= Infinity` is false, a digitless price is dropped even under the initial filters
  (`InitialFiltersKeepPricedOnly`). Such a listing survives only when the min bound is falsy
  AND the max bound is a non-empty text that parses to 0 or NaN (`UnpricedListingTest`). An
  empty max therefore constrains nothing only for listings that have a price.
- **Fractional crore prices.** The decimal point is dropped with every other non-digit, so
  "₹ 2.5 Cr" compares as 2500 and not 250 (`DecimalPointDropped`, `FractionalCrorePrice`).
  Monthly rents are plain numbers: "₹ 85,000/month" compares as 85000.
- **The `0x` prefix.** Bounds go through `parseInt` with no radix, so a `0x` prefix reads
  hexadecimal. This is modelled.
- **The loan badge.** An empty `loanAvailability` string is falsy, so `Some("")` shows no loan
  badge, just like an absent field.
- **Unmatched queries in the hero.** A query that matches no city only hides the suggestion
  list; the previous list is kept and comes back on focus.

## Model

| member | source | states |
|---|---|---|
| `Types.ParseListingType` | types.ts:16 | recognises exactly "For Sale" and "For Rent" |
| `Types.ListingTypeRoundTrip` | types.ts:16 | each listing type's label parses back to it |
| `Types.ParseStatus` | types.ts:22 | recognises exactly "Ready to move" and "Under Construction" |
| `Types.StatusRoundTrip` | types.ts:22 | each status's label parses back to it |
| `Types.ParseRole` | types.ts:40 | recognises exactly "user" and "model" |
| `Types.RoleRoundTrip` | types.ts:40 | each role's label parses back to it |
| `Types.ParseSourceType` | types.ts:48 | recognises exactly "web" and "maps" |
| `Types.SourceTypeRoundTrip` | types.ts:48 | each source type's label parses back to it |
| `Types.ParseActiveTab` | types.ts:1 | recognises exactly "Buy", "Rent" and "Sell" |
| `Types.ActiveTabRoundTrip` | types.ts:1 | each tab's label parses back to it |
| `Ecma.IncludesIff` | components/PropertyListings.tsx:65 | `includes` holds exactly when the pattern occurs at some position |
| `Ecma.TrimEmptyIffBlank` | components/ChatAssistant.tsx:56 | `trim()` gives '' exactly when every character is whitespace |
| `Ecma.ParseIntOfDigits` | components/PropertyListings.tsx:65 | `parseInt` of a run of decimal digits is its value (NaN when empty), with or without a radix |
| `Ecma.ParseDecimalPrefix` | components/ChatAssistant.tsx:83 | `parseInt(z + rest, 10)` reads the digits `z` and stops at the first non-digit |
| `Ecma.ParseIntShowInt` | components/PropertyDetail.tsx:86 | `parseInt` reads an integer's `toString` back as that integer |
| `Ecma.ShowIntInjective` | components/ChatAssistant.tsx:58-64 | distinct integers render as distinct strings |
| `Ecma.BeforeFirstOfJoin` | components/PropertyDetail.tsx:86 | `(a + '?' + b).split('?')[0]` is `a` when `a` has no '?' |
| `PropertyFilters.InputChange` | components/PropertyFilters.tsx:18-20 | a price input's change supplies only its own field, with the raw text |
| `PropertyFilters.BedroomClick` | components/PropertyFilters.tsx:87 | a bedroom button supplies only `bedrooms` |
| `PropertyFilters.TypeClick` | components/PropertyFilters.tsx:106 | a type button supplies only `type` |
| `PropertyFilters.BedroomOptionsShape` | components/PropertyFilters.tsx:22-28 | five options valued 0 to 4 in order; only 0 is labelled "Any" |
| `PropertyFilters.TypeOptionsShape` | components/PropertyFilters.tsx:30 | the type options are All, Buy, Rent in that order, and every type is offered |
| `PropertyFilters.OneBedroomHighlighted` | components/PropertyFilters.tsx:88 | no two bedroom buttons are highlighted; for `bedrooms` 0 to 4 that option is |
| `PropertyFilters.OneTypeHighlighted` | components/PropertyFilters.tsx:107 | exactly one type button is highlighted |
| `PropertyListings.Merge` | components/PropertyListings.tsx:54-56 | every supplied field overwrites, every other field keeps its previous value |
| `PropertyListings.MergePanelUpdates` | components/PropertyListings.tsx:54-56 | merging is idempotent; the empty patch changes nothing; each panel update changes exactly its own field |
| `PropertyListings.ExtractPrice` | components/PropertyListings.tsx:65 | never Infinity; NaN exactly when the price text has no digit |
| `PropertyListings.ExtractPriceValue` | components/PropertyListings.tsx:65 | the price is NaN exactly when the text has no digit; otherwise it is the number all its digits spell, ×100 exactly when "cr" occurs in the lowercased text |
| `PropertyListings.ExtractPriceOfNumeral` | components/PropertyListings.tsx:65 | a numeral reads as its value, and the numeral plus " Cr" as 100 times that |
| `PropertyListings.NoLetterCNotCrore` | components/PropertyListings.tsx:65 | a text without 'c' or 'C' is never read in crores |
| `PropertyListings.DecimalPointDropped` | components/PropertyListings.tsx:65 | "w.f Cr" compares as 100 × the value of the digits w and f together |
| `PropertyListings.FractionalCrorePrice` | constants.ts:41 | "₹ 2.5 Cr" compares as 2500 |
| `PropertyListings.MonthlyRentPrice` | constants.ts:62 | "₹ 85,000/month" compares as 85000 |
| `PropertyListings.LakhPrice` | constants.ts:143 | "₹ 95 Lakhs" compares as 95 |
| `PropertyListings.MinBound` | components/PropertyListings.tsx:66 | the min bound is never Infinity |
| `PropertyListings.MaxBound` | components/PropertyListings.tsx:67 | the max bound is Infinity exactly when its text is empty |
| `PropertyListings.PriceMatch` | components/PropertyListings.tsx:69 | two falsy bounds pass every price; a NaN price passes exactly when both bounds are falsy |
| `PropertyListings.PricedListingTest` | components/PropertyListings.tsx:66-69 | for a priced listing, the price test holds iff the price is at least the min and at most the max; an empty, zero or unparsable bound imposes nothing |
| `PropertyListings.UnpricedListingTest` | components/PropertyListings.tsx:65-69 | a digitless listing passes iff the min is falsy and the max is a non-empty text that parses to 0 or NaN |
| `PropertyListings.BedsMatch` | components/PropertyListings.tsx:70 | bedrooms 0 keeps every listing; otherwise exactly those with at least that many beds pass |
| `PropertyListings.TypeMatch` | components/PropertyListings.tsx:71 | All keeps every listing; Buy keeps exactly those for sale; Rent keeps exactly those for rent |
| `PropertyListings.Keep` | components/PropertyListings.tsx:64-73 | a kept listing has a price or two falsy bounds, has the required bedrooms, and has the chosen type |
| `PropertyListings.InitialFiltersKeepPricedOnly` | components/PropertyListings.tsx:62-73 | under the initial filters a listing is kept iff its price text has a digit |
| `PropertyListings.LowerBedroomsKeeps` | components/PropertyListings.tsx:70 | lowering or clearing the bedroom minimum never removes a shown listing |
| `PropertyListings.RetainedMembers` | components/PropertyListings.tsx:64-73 | a listing is retained iff it is in the catalog and passes all three tests |
| `PropertyListings.InsertSorted` | components/PropertyListings.tsx:75 | inserting into a sorted list adds exactly one element |
| `PropertyListings.SortFeatured` | components/PropertyListings.tsx:75 | the sort keeps the length of its input |
| `PropertyListings.SortFeaturedPartition` | components/PropertyListings.tsx:75 | the stable sort under the comparator gives the featured listings, then the others, each group in input order |
| `PropertyListings.FilteredProperties` | components/PropertyListings.tsx:62-76 | the shown list is a permutation of the retained listings, no longer than the catalog |
| `PropertyListings.FilteredPropertiesSpec` | components/PropertyListings.tsx:62-76 | shown iff in the catalog and passing all tests; a permutation of the retained listings; no longer than the catalog; retained featured then retained others, each in catalog order; no other listing precedes a featured one |
| `PropertyListings.FilteredPropertiesStable` | components/PropertyListings.tsx:75 | within each featured status the output keeps catalog order |
| `PropertyListings.FilterMonotone` | components/PropertyListings.tsx:64-73 | widening any criterion never removes a shown listing |
| `PropertyListings.BuyClickFilters` | components/PropertyFilters.tsx:106 | pressing "Buy" on the initial filters gives the Buy filter |
| `PropertyListings.BuyKeeps` | components/PropertyListings.tsx:66-71 | under the Buy filter a priced listing is shown iff it is for sale |
| `PropertyListings.KeptInPattern` | components/PropertyListings.tsx:62-76 | filtering eight listings kept and dropped in a fixed pattern, then sorting, gives the kept featured ones first, then the other kept ones, each in order |
| `PropertyListings.ShownInPattern` | components/PropertyListings.tsx:62-76 | the same pattern, with the filter's own test |
| `PropertyListings.BuyFilterOnCatalog` | components/PropertyListings.tsx:62-76 | the Buy filter on the catalog shows the listings with ids 1 and 5, then 3, 6 and 8 |
| `PropertyListings.ListingsState.constructor` | components/PropertyListings.tsx:22-25 | no data, loading, no error, the initial filters |
| `PropertyListings.ListingsState.LoadSettled` | components/PropertyListings.tsx:34-47 | success stores the data and clears the error; failure sets the fixed message and keeps the data; loading ends either way |
| `PropertyListings.ListingsState.HandleFilterChange` | components/PropertyListings.tsx:54-56 | the filters become the merge of the old ones with the update; nothing else changes |
| `PropertyListings.ListingsState.ResetFilters` | components/PropertyListings.tsx:58-60 | the filters become `{'', '', 0, All}`; nothing else changes |
| `PropertyListings.ListingsState.View` | components/PropertyListings.tsx:78-100 | loading wins over an error, which wins over the results; the error view shows the error text itself; the results are the filtered list and its count |
| `MapView.ProjectCoordinates` | components/MapView.tsx:23-31 | `top` is the latitude's position in the box scaled to 100 and inverted; `left` is the longitude's, not inverted |
| `MapView.Corners` | components/MapView.tsx:15-28 | (8, 68) lands at top 100, left 0; (37, 97) at top 0, left 100 |
| `MapView.Separable` | components/MapView.tsx:27-28 | `top` depends on the latitude alone, `left` on the longitude alone |
| `MapView.Monotone` | components/MapView.tsx:27-28 | further north is strictly higher; further east is strictly further right |
| `MapView.InsideIff` | components/MapView.tsx:23-31 | no clamping: a coordinate is inside the box iff its percentage is in [0, 100] |
| `MapView.MarkerFor` | components/MapView.tsx:41-55 | a pin is at its listing's projection; it is selected iff the selection has its id, and hovered iff the hovered id is its id; hover styling iff hovered and not selected |
| `MapView.Markers` | components/MapView.tsx:40-60 | exactly one pin per listing, in listing order |
| `MapView.MarkerFlags` | components/MapView.tsx:42-55 | no pin is both selected and hover-styled; with unique ids at most one pin is selected and at most one hovered |
| `MapView.InfoWindowAt` | components/MapView.tsx:62-64 | an info window exists iff a listing is selected |
| `MapView.InfoWindowOnPin` | components/MapView.tsx:70-71 | the info window sits exactly on the selected listing's pin |
| `Hero.FindCity` | components/Hero.tsx:59 | the first city key, in table order, that the query is a prefix of; none iff no key starts with it |
| `Hero.Capitalize` | components/Hero.tsx:62 | the first character is uppercased and the rest kept |
| `Hero.AreaLabels` | components/Hero.tsx:62 | one label per area, in order: the area, ", ", then the capitalised city |
| `Hero.Lookup` | components/Hero.tsx:56-62 | a query of at most two characters lists nothing; otherwise the first matching city's labels, or nothing |
| `Hero.FirstCityWins` | components/Hero.tsx:59 | a query matching the first key lists that city, whatever follows |
| `Hero.BanSuggestsBangalore` | components/Hero.tsx:59-62 | "ban" lists Bangalore's areas in order, each followed by ", Bangalore" |
| `Hero.LongerThanKeyMatchesNothing` | components/Hero.tsx:59 | a query longer than every key matches nothing: the query must be a prefix of the key |
| `Hero.HeroState.constructor` | components/Hero.tsx:13-18 | slide 0, empty query, no suggestion, not loading, empty hidden list |
| `Hero.HeroState.Tick` | components/Hero.tsx:25 | the slide index steps to (i + 1) mod the slide count and stays in range |
| `Hero.HeroState.HandleInputChange` | components/Hero.tsx:53-70 | the query is always stored; the list is shown iff a city matches, and is then that city's labels; otherwise it is hidden and the old list kept |
| `Hero.HeroState.HandleSuggestionClick` | components/Hero.tsx:72-75 | the query becomes the picked label and the list is hidden |
| `Hero.HeroState.HandleFocus` | components/Hero.tsx:111 | focus re-shows a non-empty list |
| `Hero.HeroState.HandleSearch` | components/Hero.tsx:42-47 | a blank query changes nothing; otherwise the list is hidden, loading starts and the old suggestion is cleared |
| `Hero.HeroState.SuggestionArrived` | components/Hero.tsx:48-50 | the service's answer, or its fallback, is shown and loading ends |
| `Hero.HeroState.DropdownShown` | components/Hero.tsx:116 | the dropdown is drawn only with a non-empty list |
| `Hero.BlankSearchIsIgnored` | components/Hero.tsx:44 | submitting whitespace leaves the suggestion and loading state unchanged |
| `PropertyDetail.SimilarProperties` | components/PropertyDetail.tsx:82-84 | at most four listings, each with another id and the shown listing's location |
| `PropertyDetail.SimilarPropertiesSpec` | components/PropertyDetail.tsx:82-84 | none with the shown id, all in the same location, the first matches in catalog order; exactly four when there are more than four candidates, and every candidate otherwise |
| `PropertyDetail.RenderedSimilar` | components/PropertyDetail.tsx:208 | the first two similar listings, or all of them when there are fewer |
| `PropertyDetail.SimilarToListingFive` | components/PropertyDetail.tsx:82-84 | listing 5's similar listings are 2 and 8, and both are drawn |
| `PropertyDetail.PropertyUrl` | components/PropertyDetail.tsx:86 | the link starts with the address before the first '?' |
| `PropertyDetail.PropertyUrlBase` | components/PropertyDetail.tsx:86 | splitting the link at its first '?' gives back that address |
| `PropertyDetail.PropertyUrlQuery` | components/PropertyDetail.tsx:86 | after the address come "?property=" and the id, which `parseInt` reads back |
| `PropertyDetail.PropertyUrlReshare` | components/PropertyDetail.tsx:86 | sharing from a shared link only replaces the id |
| `PropertyDetail.BadgesOf` | components/PropertyDetail.tsx:165-175 | the RERA and authority badges show iff the flag is present and true; the loan badge is hidden iff the text is absent, empty or "Not Applicable", and otherwise carries the text |
| `PropertyDetail.Render` | components/PropertyDetail.tsx:80-208 | nothing without a listing; otherwise that listing with its badges (`BadgesOf`), its similar listings (`SimilarProperties`), the similar section iff there are any, the cards (`RenderedSimilar`) and the share link (`PropertyUrl`) |
| `PropertyDetail.EnquiryTemplate` | components/PropertyDetail.tsx:14 | the default message contains the quoted title |
| `PropertyDetail.EnquiryForm.constructor` | components/PropertyDetail.tsx:14-15 | on the form's first mount the fields are empty, the message is the template, and the form is not submitted |
| `PropertyDetail.EnquiryForm.SetName` | components/PropertyDetail.tsx:40 | only the name changes |
| `PropertyDetail.EnquiryForm.SetEmail` | components/PropertyDetail.tsx:44 | only the email changes |
| `PropertyDetail.EnquiryForm.SetPhone` | components/PropertyDetail.tsx:48 | only the phone changes |
| `PropertyDetail.EnquiryForm.SetMessage` | components/PropertyDetail.tsx:52 | only the message changes |
| `PropertyDetail.EnquiryForm.Submit` | components/PropertyDetail.tsx:17-22 | the form is submitted and the entered data is unchanged |
| `GeminiService.GroundingChunks` | services/geminiService.ts:84 | the first candidate's chunks; [] when candidates are absent or empty, or it has no metadata or chunks |
| `GeminiService.SourcesOfKind` | services/geminiService.ts:85-91 | a pick that only yields sources of one type extracts only sources of that type |
| `GeminiService.WebSources` | services/geminiService.ts:85-91 | at most one source per chunk, and every one a 'web' source |
| `GeminiService.MapsSources` | services/geminiService.ts:121-127 | at most one source per chunk, and every one a 'maps' source |
| `GeminiService.SmartSources` | services/geminiService.ts:150-156 | at most one source per chunk |
| `GeminiService.SourcesOfMembers` | services/geminiService.ts:150-156 | a source is extracted iff some chunk maps to it |
| `GeminiService.SourcesOfAppend` | services/geminiService.ts:150-156 | extraction distributes over concatenation, so order is preserved |
| `GeminiService.WebSourcesAsFilterMap` | services/geminiService.ts:85-91 | the market-news sources are the chunks with a web reference, in order, each as a 'web' source |
| `GeminiService.MapsSourcesAsFilterMap` | services/geminiService.ts:121-127 | the local-info sources are the chunks with a maps reference, in order, each as a 'maps' source |
| `GeminiService.SmartSourcesMembers` | services/geminiService.ts:150-156 | a smart source is a chunk's web reference, or its maps reference when it has no web one |
| `GeminiService.SmartSourcesDegenerate` | services/geminiService.ts:150-156 | without maps references the smart sources are the web ones; without web references they are the maps ones |
| `GeminiService.PropertyDescription` | services/geminiService.ts:40-71 | the response text, or the fixed fallback when the call throws |
| `GeminiService.MarketNews` | services/geminiService.ts:73-99 | the response text with exactly the web sources of its chunks, all of them 'web'; or the fallback with no sources when the call throws |
| `GeminiService.LocalInfo` | services/geminiService.ts:101-135 | the response text with exactly the maps sources of its chunks, all of them 'maps'; or the fallback with no sources when the call throws |
| `GeminiService.SmartSuggestion` | services/geminiService.ts:137-164 | the response text with exactly the smart sources of its chunks, at most one per chunk; or the fallback with no sources when the call throws |
| `GeminiService.UngroundedHasNoSources` | services/geminiService.ts:84 | without candidates or metadata, all three answers have no sources |
| `GeminiService.UserLocationContext` | services/geminiService.ts:139 | empty iff there is no location; otherwise it mentions both coordinates |
| `GeminiService.QuickChatOutput` | services/geminiService.ts:27-38 | every received chunk, in order, then the apology iff the stream failed |
| `GeminiService.GeminiClient.constructor` | services/geminiService.ts:13 | no session yet |
| `GeminiService.GeminiClient.GetQuickChatInstance` | services/geminiService.ts:15-25 | the first call stores the new session; every later call returns the stored one |
| `GeminiService.GeminiClient.StreamQuickChat` | services/geminiService.ts:27-38 | the chunks passed on are exactly the stream's output, and the session exists afterwards |
| `ChatAssistant.Intro` | components/ChatAssistant.tsx:24-41 | the Local Search intro names the geolocation error when there is one, else asks for a locality |
| `ChatAssistant.UserMessage` | components/ChatAssistant.tsx:58 | the user's message has the typed text, no sources, and an id that is not the intro's |
| `ChatAssistant.ModelMessage` | components/ChatAssistant.tsx:64 | a reply has the model role, its text and sources, and an id that is not the intro's |
| `ChatAssistant.MessageIdsDiffer` | components/ChatAssistant.tsx:58-64 | with a clock that does not run backwards, the user's message and the reply get different ids |
| `ChatAssistant.ClockIdIsNotIntro` | components/ChatAssistant.tsx:45-58 | no clock reading renders as the intro's id |
| `ChatAssistant.AppendChunk` | components/ChatAssistant.tsx:70 | only messages with the id get the chunk appended to their text; nothing is added, dropped or reordered |
| `ChatAssistant.StreamInto` | components/ChatAssistant.tsx:68-71 | streaming keeps the list's length and every message's id, role and sources |
| `ChatAssistant.StreamIntoSpec` | components/ChatAssistant.tsx:68-71 | after streaming, each message with the id has all chunks appended in order, and all other messages are unchanged |
| `ChatAssistant.QuickChatTranscript` | components/ChatAssistant.tsx:68-71 | when only the new empty reply has its id, streaming leaves the rest as it was and the reply holds the concatenated chunks |
| `ChatAssistant.FindById` | components/ChatAssistant.tsx:84 | a found listing is the first in the catalog with that id; none iff no listing has it (NaN matches none) |
| `ChatAssistant.FindByIdUnique` | components/ChatAssistant.tsx:84 | with unique ids, a listing's id finds that listing |
| `ChatAssistant.TypedIdFindsListing` | components/ChatAssistant.tsx:83-84 | typing a listing's id, then anything not starting with a digit, finds it |
| `ChatAssistant.CatalogIds` | components/ChatAssistant.tsx:38 | the catalog's ids are 1 to 8, in order |
| `ChatAssistant.CatalogLookup` | components/ChatAssistant.tsx:83-89 | ids 1 to 8 find their listing; every other integer finds none |
| `ChatAssistant.Reply` | components/ChatAssistant.tsx:72-90 | Market News shows exactly the `fetchMarketNews` answer's text and sources, all 'web'; Local Search with a location exactly the `fetchLocalInfo` answer's text and sources, all 'maps'; without one the geolocation error or the default request; Generate Description the description iff the typed id finds a listing, else the apology |
| `ChatAssistant.DescriptionReply` | components/ChatAssistant.tsx:82-90 | a typed id gets the generated description; a prompt that parses to no listed id gets the fixed apology |
| `ChatAssistant.ChatPanel.constructor` | components/ChatAssistant.tsx:16-47 | empty input, not loading, Quick Chat; mounting open installs the intro |
| `ChatAssistant.ChatPanel.SetIsOpen` | components/ChatAssistant.tsx:43-47 | opening replaces the list by the current mode's single intro; closing keeps the list |
| `ChatAssistant.ChatPanel.SetMode` | components/ChatAssistant.tsx:43-47 | a different mode, while open, replaces the list by that mode's single intro |
| `ChatAssistant.ChatPanel.SetInput` | components/ChatAssistant.tsx:195 | only the input changes |
| `ChatAssistant.ChatPanel.StreamReply` | components/ChatAssistant.tsx:67-71 | an empty reply is appended and every chunk of the stream's output is streamed into it |
| `ChatAssistant.Ignored` | components/ChatAssistant.tsx:56 | a send is ignored exactly when the input is all whitespace or a reply is loading |
| `ChatAssistant.ChatPanel.AppendReply` | components/ChatAssistant.tsx:72-90 | the mode's reply is appended as one message; nothing else changes |
| `ChatAssistant.ChatPanel.Dispatch` | components/ChatAssistant.tsx:58-98 | the input is cleared, loading ends, and the user's message and the mode's reply are appended |
| `ChatAssistant.ChatPanel.SendMessage` | components/ChatAssistant.tsx:55-98 | a send happens iff the input is not blank and nothing is loading, and otherwise nothing changes; after a send the input is empty and loading is over; the user's message and the mode's reply are appended |
| `ChatAssistant.QuickChatSend` | components/ChatAssistant.tsx:58-71 | a Quick Chat send adds exactly the user's message and one reply holding the concatenated stream output |
| `App.AppState.constructor` | App.tsx:12-14 | the Buy tab, the chat closed, nothing selected: the home page |
| `App.AppState.CurrentPage` | App.tsx:29-42 | the detail page iff a listing is selected, showing that listing; otherwise the home page with the header's tab |
| `App.AppState.HandlePropertySelect` | App.tsx:16-19 | the detail page shows the chosen listing; the tab and chat are kept |
| `App.AppState.HandleCloseDetail` | App.tsx:21-23 | the selection is cleared and the home page shows |
| `App.AppState.SetActiveTab` | App.tsx:27 | only the tab changes |
| `App.AppState.SetIsChatOpen` | App.tsx:46 | only the chat flag changes |
| `App.SelectSimilarThenClose` | App.tsx:33 | choosing a similar listing replaces the selection, and closing then returns home under the same tab |
| `App.ToggleChatTwice` | App.tsx:46 | toggling the chat twice restores it |

## Left out

- The Gemini network calls, the `API_KEY` check, the prompt texts and the model options. A
  call's outcome (`Call`) and a chat stream's chunks and failure (`ChatStream`) are inputs.
- `fetchProperties`: its random failure and timer. The fetch outcome is an input of
  `ListingsState.LoadSettled`.
- The `await` points. A chat send runs its awaited call inside one method
  (`ChatPanel.SendMessage`), so other events cannot interleave with it. The hero search is
  split at its `await` into `HandleSearch` and `SuggestionArrived`, and other events may run
  between the two.
- The outer `catch` of `handleSendMessage`. It is unreachable in the code, because every
  service it calls catches its own errors.
- The geolocation hook. Its source is not part of this model; `location` and `locationError`
  are parameters.
- The two `Date.now()` readings. They are the parameters `now` and `later`.
- `window.location.href`, which is a parameter.
- The timer that drives the slides; only the index step is modelled. Also left out: the
  click-outside listeners, the clipboard, scrolling, the share menu, `console` output, CSS
  and markup.
- HTML form validation (`required`) on the enquiry form.
- Floating point. Map coordinates are `real`; the `${top}%` formatting and JavaScript's
  number-to-text conversion of coordinates (`UserLocationContext` takes it as a function) are
  not modelled.
- JavaScript number limits. Prices and ids are unbounded integers, so the precision of long
  digit runs is not modelled, and `Num` has no negative infinity.
- Unicode case mapping. `toLowerCase`/`toUpperCase` are modelled as ASCII only.
- `undefined` fields in a grounding chunk or a streamed chunk. The model's references always
  carry their title and URI, and a chunk's text is a string.
- `BanSuggestsBangalore`: states the "ban" suggestions as a `Map` over the city's area list
  rather than as the five literal labels.
- Component lifetimes. `AppState` does not record which components are mounted. In the
  source, `EnquiryForm` has no `key`, so it is not re-created when the detail page switches
  to a similar listing: it keeps its `isSubmitted` flag and a message that names the
  previous title. The model's `EnquiryForm.constructor` is the form's first mount only. In
  the other direction, showing the detail page unmounts `Hero` and `PropertyListings`, so
  returning home resets the filters to `initialFilters`, starts a new fetch, and shows slide
  0 with an empty query; `AppState.HandleCloseDetail` does not say this.
- A throw from `ai.chats.create`. `GeminiClient.StreamQuickChat` assumes opening the session
  succeeds. In the source such a throw would leave `quickChatInstance` null and emit the
  apology.
- The presentational components (cards, header, footer, sidebar, modals, buttons).
