/** The request handling of backend.py that is not HTTP plumbing: how the
    `/chat` endpoint splits the incoming messages into the user's profile,
    the conversation and the last user question, how it grows the system
    prompt section by section, and how `/stock/{symbol}` answers. The base
    advisor prompt and the knowledge-base context for a question are
    parameters. */
module Backend {
  import opened Wrappers
  import Text
  import Sequences
  import FinancialApi
  import InvestmentPlatforms

  /** One chat message as the frontend sends it. */
  datatype Message = Message(role: string, content: string)

  /** The text that marks the system message carrying the user's profile. */
  const ProfileMarker: string := "User Profile:"

  /** A system message whose content holds the profile marker. */
  predicate IsProfile(m: Message)
  {
    m.role == "system" && Text.Contains(ProfileMarker, m.content)
  }

  /** The profile after reading `msgs` in order: the content of the last
      profile message, or "" when there is none. */
  function ProfileOf(msgs: seq<Message>): string
  {
    if |msgs| == 0 then ""
    else if IsProfile(msgs[|msgs| - 1]) then msgs[|msgs| - 1].content
    else ProfileOf(msgs[..|msgs| - 1])
  }

  /** The messages of `msgs` that are not system messages, in order. */
  function Conversation(msgs: seq<Message>): seq<Message>
  {
    if |msgs| == 0 then []
    else
      var rest := Conversation(msgs[..|msgs| - 1]);
      if msgs[|msgs| - 1].role != "system" then rest + [msgs[|msgs| - 1]] else rest
  }

  /** The profile is empty exactly when no message is a profile message;
      otherwise it is the content of a profile message after which no
      other profile message follows. */
  lemma {:induction false} ProfileIsLastMarked(msgs: seq<Message>)
    ensures ProfileOf(msgs) == "" <==> forall i :: 0 <= i < |msgs| ==> !IsProfile(msgs[i])
    ensures ProfileOf(msgs) != "" ==>
      exists i :: 0 <= i < |msgs| && IsProfile(msgs[i]) && ProfileOf(msgs) == msgs[i].content &&
        forall j :: i < j < |msgs| ==> !IsProfile(msgs[j])
  {
    if |msgs| > 0 {
      var init, last := msgs[..|msgs| - 1], msgs[|msgs| - 1];
      ProfileIsLastMarked(init);
      if IsProfile(last) {
        var k :| Text.OccursAt(ProfileMarker, last.content, k);
        assert |last.content| >= |ProfileMarker| > 0;
        assert IsProfile(msgs[|msgs| - 1]);
      } else {
        assert forall i :: 0 <= i < |init| ==> init[i] == msgs[i];
        if ProfileOf(init) != "" {
          var i :| 0 <= i < |init| && IsProfile(init[i]) && ProfileOf(init) == init[i].content &&
            forall j :: i < j < |init| ==> !IsProfile(init[j]);
          assert forall j :: i < j < |msgs| ==> !IsProfile(msgs[j]) by {
            forall j | i < j < |msgs|
              ensures !IsProfile(msgs[j])
            {
              if j < |init| {
                assert msgs[j] == init[j];
              }
            }
          }
        }
      }
    }
  }

  /** The conversation holds exactly the non-system messages. */
  lemma {:induction false} ConversationIsNonSystem(msgs: seq<Message>)
    ensures forall m :: m in Conversation(msgs) <==> m in msgs && m.role != "system"
  {
    if |msgs| > 0 {
      var init, last := msgs[..|msgs| - 1], msgs[|msgs| - 1];
      assert msgs == init + [last];
      ConversationIsNonSystem(init);
    }
  }

  /** The conversation keeps the messages in their original order. */
  lemma {:induction false} ConversationKeepsOrder(msgs: seq<Message>)
    ensures Sequences.IsSubsequence(Conversation(msgs), msgs)
  {
    if |msgs| > 0 {
      var init, last := msgs[..|msgs| - 1], msgs[|msgs| - 1];
      ConversationKeepsOrder(init);
      var c := Conversation(init);
      if last.role != "system" {
        assert (c + [last])[..|c|] == c;
      } else {
        Sequences.SubsequenceExtend(c, init, last);
        assert init + [last] == msgs;
      }
    }
  }

  /** The loop of `chat` that sorts the incoming messages: a profile
      message replaces the profile, other system messages are dropped and
      the rest are kept in order. */
  method PartitionMessages(msgs: seq<Message>) returns (profile: string, conversation: seq<Message>)
    ensures profile == ProfileOf(msgs)
    ensures conversation == Conversation(msgs)
  {
    profile := "";
    conversation := [];
    for i := 0 to |msgs|
      invariant profile == ProfileOf(msgs[..i])
      invariant conversation == Conversation(msgs[..i])
    {
      assert msgs[..i + 1][..i] == msgs[..i];
      var msg := msgs[i];
      if msg.role == "system" && Text.Contains(ProfileMarker, msg.content) {
        profile := msg.content;
      } else if msg.role != "system" {
        conversation := conversation + [msg];
      }
    }
    assert msgs[..|msgs|] == msgs;
  }

  /** The content of the last message with role "user", if any. */
  function LastUserMessage(conversation: seq<Message>): Option<string>
  {
    if |conversation| == 0 then None
    else if conversation[|conversation| - 1].role == "user" then Some(conversation[|conversation| - 1].content)
    else LastUserMessage(conversation[..|conversation| - 1])
  }

  /** None exactly when no message has role "user"; otherwise the content
      of a user message after which no other user message follows. */
  lemma {:induction false} LastUserMessageIsLast(conversation: seq<Message>)
    ensures LastUserMessage(conversation).None? <==>
      forall i :: 0 <= i < |conversation| ==> conversation[i].role != "user"
    ensures LastUserMessage(conversation).Some? ==>
      exists i :: 0 <= i < |conversation| && conversation[i].role == "user" &&
        LastUserMessage(conversation).value == conversation[i].content &&
        forall j :: i < j < |conversation| ==> conversation[j].role != "user"
  {
    if |conversation| > 0 && conversation[|conversation| - 1].role != "user" {
      var init := conversation[..|conversation| - 1];
      LastUserMessageIsLast(init);
      assert forall i :: 0 <= i < |init| ==> init[i] == conversation[i];
      if LastUserMessage(init).Some? {
        var i :| 0 <= i < |init| && init[i].role == "user" &&
          LastUserMessage(init).value == init[i].content &&
          forall j :: i < j < |init| ==> init[j].role != "user";
        assert forall j :: i < j < |conversation| ==> conversation[j].role != "user" by {
          forall j | i < j < |conversation|
            ensures conversation[j].role != "user"
          {
            if j < |init| {
              assert conversation[j] == init[j];
            }
          }
        }
      }
    }
  }

  /** The reverse scan of `chat` for the last user message. */
  method FindLastUserMessage(conversation: seq<Message>) returns (last: Option<string>)
    ensures last == LastUserMessage(conversation)
  {
    var i := |conversation|;
    assert conversation[..i] == conversation;
    while i > 0
      invariant 0 <= i <= |conversation|
      invariant LastUserMessage(conversation) == LastUserMessage(conversation[..i])
    {
      assert conversation[..i][..i - 1] == conversation[..i - 1];
      if conversation[i - 1].role == "user" {
        return Some(conversation[i - 1].content);
      }
      i := i - 1;
    }
    return None;
  }

  /** The sections `chat` may append to the base prompt. */
  datatype Section =
    | AboutUser(profile: string)
    | PlatformsAndGuide(platforms: string, guide: string)
    | RelevantEtfs(context: string)
    | Reminders

  /** The fixed wording around the variable parts of the sections. The
      assembly is proved for any wording; `ChatWording` is the one `chat`
      uses. */
  datatype Wording = Wording(
    aboutUserOpening: string,
    aboutUserClosing: string,
    platformsOpening: string,
    guideOpening: string,
    etfOpening: string,
    sectionClosing: string,
    reminders: string)

  const ChatWording: Wording := Wording(
    "\n\n---\n**ABOUT THIS USER:**\n\n",
    "\n\n**Important:** Use this profile information to personalize your advice. Consider their age, income, family situation, goals, and risk tolerance when making recommendations.\n---\n",
    "\n\n---\n**INVESTMENT PLATFORMS** (Always mention these with links when user asks how to invest):\n\n",
    "\n\n---\n**PRACTICAL INVESTING GUIDE** (Use this to explain step-by-step how to invest):\n\n",
    "\n**RELEVANT ETF KNOWLEDGE WITH LIVE DATA** (Use this to provide better, more detailed answers):\n\n",
    "\n\n---\n",
    "\n**CRITICAL REMINDERS:**\n- Always explain in SIMPLE language (like talking to a friend who knows nothing about investing)\n- When recommending investments, ALWAYS include:\n  1. What to buy (e.g., \"SPY - an ETF containing America's top 500 companies\")\n  2. WHY to buy it (with beginner explanation)\n  3. CURRENT PRICE and performance (use the live data above if available)\n  4. HOW to buy it (step-by-step using the platform guides above)\n  5. Links to platforms where they can invest\n- Never assume the user knows anything - explain everything!\n- Use the user's profile information to give personalized advice\n- Be conversational, friendly, and encouraging\n---\n")

  /** The text each section adds. */
  function Render(w: Wording, s: Section): string
  {
    match s
    case AboutUser(profile) => w.aboutUserOpening + profile + w.aboutUserClosing
    case PlatformsAndGuide(platforms, guide) =>
      w.platformsOpening + platforms + w.guideOpening + guide + w.sectionClosing
    case RelevantEtfs(context) => w.etfOpening + context + w.sectionClosing
    case Reminders => w.reminders
  }

  /** The sections' texts one after the other. */
  function RenderAll(w: Wording, sections: seq<Section>): string
  {
    if |sections| == 0 then "" else RenderAll(w, sections[..|sections| - 1]) + Render(w, sections[|sections| - 1])
  }

  /** The knowledge-base context for a question (get_ai_context with three
      results and live data); "" when nothing relevant was found. */
  type EtfContext = string -> string

  /** A string is truthy in the source when it is not empty. */
  predicate Truthy(last: Option<string>)
  {
    last.Some? && last.value != ""
  }

  /** The profile section, when there is a profile. */
  function ProfileSections(profile: string): seq<Section>
  {
    if profile != "" then [AboutUser(profile)] else []
  }

  /** The knowledge section, when the last user question is not empty and
      its context is not empty either. */
  function EtfSections(last: Option<string>, etfContext: EtfContext): seq<Section>
  {
    if Truthy(last) && etfContext(last.value) != "" then [RelevantEtfs(etfContext(last.value))] else []
  }

  /** The sections `chat` appends, in order. */
  function Sections(profile: string, platforms: string, guide: string, last: Option<string>, etfContext: EtfContext): seq<Section>
  {
    ProfileSections(profile) + [PlatformsAndGuide(platforms, guide)] + EtfSections(last, etfContext) + [Reminders]
  }

  /** The profile section comes first and appears exactly when there is a
      profile; the platform section always appears; the knowledge section
      appears exactly when there is a non-empty last user question whose
      context is not empty; the reminders close the prompt. */
  lemma SectionsShape(profile: string, platforms: string, guide: string, last: Option<string>, etfContext: EtfContext)
    ensures var s := Sections(profile, platforms, guide, last, etfContext);
      && (AboutUser(profile) in s <==> profile != "")
      && (profile != "" ==> s[0] == AboutUser(profile))
      && PlatformsAndGuide(platforms, guide) in s
      && ((exists c :: RelevantEtfs(c) in s) <==> Truthy(last) && etfContext(last.value) != "")
      && (Truthy(last) && etfContext(last.value) != "" ==> RelevantEtfs(etfContext(last.value)) in s)
      && s[|s| - 1] == Reminders
      && 2 <= |s| <= 4
  {
    var s := Sections(profile, platforms, guide, last, etfContext);
    var a := if profile != "" then [AboutUser(profile)] else [];
    var e := if Truthy(last) && etfContext(last.value) != "" then [RelevantEtfs(etfContext(last.value))] else [];
    assert s == a + [PlatformsAndGuide(platforms, guide)] + e + [Reminders];
    if exists c :: RelevantEtfs(c) in s {
      var c :| RelevantEtfs(c) in s;
      assert RelevantEtfs(c) in e;
    }
  }

  /** The system prompt `chat` sends: the base prompt and every section's text. */
  function SystemPrompt(w: Wording, basePrompt: string, profile: string, platforms: string, guide: string,
                        last: Option<string>, etfContext: EtfContext): string
  {
    basePrompt + RenderAll(w, Sections(profile, platforms, guide, last, etfContext))
  }

  /** The listing of every platform, international ones first. */
  function PlatformListing(): string
  {
    InvestmentPlatforms.Listing(InvestmentPlatforms.International + InvestmentPlatforms.CryptoFriendly)
  }

  /** The system prompt opens with the base prompt and, when there is a
      profile, continues with the profile section. */
  lemma SystemPromptOpens(w: Wording, basePrompt: string, profile: string, platforms: string, guide: string,
                          last: Option<string>, etfContext: EtfContext)
    ensures var p := SystemPrompt(w, basePrompt, profile, platforms, guide, last, etfContext);
      && |basePrompt| <= |p| && p[..|basePrompt|] == basePrompt
      && (profile != "" ==>
            var head := basePrompt + Render(w, AboutUser(profile));
            |head| <= |p| && p[..|head|] == head)
  {
    var s := Sections(profile, platforms, guide, last, etfContext);
    var all := RenderAll(w, s);
    assert SystemPrompt(w, basePrompt, profile, platforms, guide, last, etfContext) == basePrompt + all;
    if profile != "" {
      SectionsShape(profile, platforms, guide, last, etfContext);
      RenderAllHead(w, s);
      Text.PrefixBehind(basePrompt, all, Render(w, AboutUser(profile)));
    }
  }

  /** The text of the first section is the start of the text of all of them. */
  lemma RenderAllHead(w: Wording, sections: seq<Section>)
    requires |sections| >= 1
    ensures var head := Render(w, sections[0]);
      |head| <= |RenderAll(w, sections)| && RenderAll(w, sections)[..|head|] == head
  {
    RenderAllPrefix(w, sections, 1);
    assert sections[..1] == [sections[0]];
    assert RenderAll(w, sections[..1]) == RenderAll(w, []) + Render(w, sections[0]);
  }

  /** The text of the first sections is the start of the text of all of them. */
  lemma {:induction false} RenderAllPrefix(w: Wording, sections: seq<Section>, k: nat)
    requires k <= |sections|
    ensures var head := RenderAll(w, sections[..k]);
      |head| <= |RenderAll(w, sections)| && RenderAll(w, sections)[..|head|] == head
    decreases |sections|
  {
    if k < |sections| {
      var init := sections[..|sections| - 1];
      assert init[..k] == sections[..k];
      RenderAllPrefix(w, init, k);
    } else {
      assert sections[..k] == sections;
    }
  }

  /** Appending a section appends its text. */
  lemma RenderAllAppend(w: Wording, sections: seq<Section>, s: Section)
    ensures RenderAll(w, sections + [s]) == RenderAll(w, sections) + Render(w, s)
  {
    assert (sections + [s])[..|sections|] == sections;
  }

  /** The system prompt, piece by piece. */
  lemma {:induction false} SystemPromptPieces(w: Wording, basePrompt: string, profile: string, platforms: string, guide: string,
                                              last: Option<string>, etfContext: EtfContext)
    ensures SystemPrompt(w, basePrompt, profile, platforms, guide, last, etfContext)
         == basePrompt + RenderAll(w, ProfileSections(profile)) + Render(w, PlatformsAndGuide(platforms, guide))
            + RenderAll(w, EtfSections(last, etfContext)) + Render(w, Reminders)
  {
    var a := ProfileSections(profile);
    var e := EtfSections(last, etfContext);
    var p := PlatformsAndGuide(platforms, guide);
    var x, y, z, u := RenderAll(w, a), Render(w, p), RenderAll(w, e), Render(w, Reminders);
    assert RenderAll(w, a + [p] + e + [Reminders]) == x + y + z + u by {
      RenderAllAppend(w, a, p);
      RenderAllConcat(w, a + [p], e);
      RenderAllAppend(w, a + [p] + e, Reminders);
    }
    assert Sections(profile, platforms, guide, last, etfContext) == a + [p] + e + [Reminders];
    Text.AppendAssociates(basePrompt, x + y + z, u);
    Text.AppendAssociates(basePrompt, x + y, z);
    Text.AppendAssociates(basePrompt, x, y);
  }

  /** Sections of at most one element render one after the other. */
  lemma RenderAllConcat(w: Wording, sections: seq<Section>, more: seq<Section>)
    requires |more| <= 1
    ensures RenderAll(w, sections + more) == RenderAll(w, sections) + RenderAll(w, more)
  {
    if |more| == 1 {
      RenderAllAppend(w, sections, more[0]);
      assert more == [more[0]];
      RenderAllAppend(w, [], more[0]);
      assert [] + [more[0]] == more;
    } else {
      assert sections + more == sections;
    }
  }

  /** The part of `chat` that grows the system prompt with `+=`, given
      the platform listing and the guide. */
  method AppendSections(w: Wording, basePrompt: string, profile: string, platforms: string, guide: string,
                        last: Option<string>, etfContext: EtfContext)
    returns (prompt: string)
    ensures prompt == SystemPrompt(w, basePrompt, profile, platforms, guide, last, etfContext)
  {
    prompt := basePrompt;
    if profile != "" {
      prompt := prompt + Render(w, AboutUser(profile));
      assert RenderAll(w, [AboutUser(profile)]) == RenderAll(w, []) + Render(w, AboutUser(profile));
    }
    assert prompt == basePrompt + RenderAll(w, ProfileSections(profile));
    prompt := prompt + Render(w, PlatformsAndGuide(platforms, guide));
    ghost var fixed := prompt;
    if last.Some? && last.value != "" {
      var context := etfContext(last.value);
      if context != "" {
        prompt := prompt + Render(w, RelevantEtfs(context));
        assert RenderAll(w, [RelevantEtfs(context)]) == RenderAll(w, []) + Render(w, RelevantEtfs(context));
      }
    }
    assert prompt == fixed + RenderAll(w, EtfSections(last, etfContext));
    prompt := prompt + Render(w, Reminders);
    SystemPromptPieces(w, basePrompt, profile, platforms, guide, last, etfContext);
  }

  /** The system prompt of `chat`: the platform listing and the beginners'
      guide are always part of it. */
  method BuildSystemPrompt(basePrompt: string, profile: string, last: Option<string>, etfContext: EtfContext)
    returns (prompt: string)
    ensures prompt == SystemPrompt(ChatWording, basePrompt, profile, PlatformListing(), InvestmentPlatforms.BeginnersGuide, last, etfContext)
  {
    var platformsInfo := InvestmentPlatforms.GetAllPlatformsForAi();
    var practicalGuide := InvestmentPlatforms.BeginnersGuide;
    prompt := AppendSections(ChatWording, basePrompt, profile, platformsInfo, practicalGuide, last, etfContext);
  }

  /** The messages sent to the model: the system prompt, then the conversation. */
  function ChatMessages(prompt: string, conversation: seq<Message>): (r: seq<Message>)
    ensures |r| == 1 + |conversation|
    ensures r[0] == Message("system", prompt) && r[1..] == conversation
  {
    [Message("system", prompt)] + conversation
  }

  /** Everything `chat` does before calling the language model: the request
      is one system message carrying the assembled prompt, followed by the
      non-system messages in their original order. */
  method PrepareChat(msgs: seq<Message>, basePrompt: string, etfContext: EtfContext)
    returns (request: seq<Message>)
    ensures |request| == 1 + |Conversation(msgs)|
    ensures request[0].role == "system"
    ensures request[0].content ==
      SystemPrompt(ChatWording, basePrompt, ProfileOf(msgs), PlatformListing(), InvestmentPlatforms.BeginnersGuide,
                   LastUserMessage(Conversation(msgs)), etfContext)
    ensures request[1..] == Conversation(msgs)
  {
    var profile, conversation := PartitionMessages(msgs);
    var last := FindLastUserMessage(conversation);
    var prompt := BuildSystemPrompt(basePrompt, profile, last, etfContext);
    request := ChatMessages(prompt, conversation);
  }

  /** The answers of `/stock/{symbol}`. */
  datatype StockResponse =
    | StockData(data: FinancialApi.Quote)
    | HttpError(status: nat, detail: string)

  /** The not-found text of `/stock/{symbol}`; it names the symbol as the
      caller wrote it. */
  function NotFoundDetail(symbol: string): string
  {
    "Could not fetch price data for " + symbol
  }

  /** The response as written: the 404 is raised inside the `try` whose
      generic handler turns every exception into a 500 whose detail is the
      exception's text, "404: " followed by the not-found text. */
  function StockResponseAsWritten(lookup: Option<FinancialApi.Quote>, symbol: string): StockResponse
  {
    match lookup
    case Some(q) => StockData(q)
    case None => HttpError(500, "404: " + NotFoundDetail(symbol))
  }

  /** The response the endpoint evidently intends: a 404 with the not-found text. */
  function StockResponseFor(lookup: Option<FinancialApi.Quote>, symbol: string): StockResponse
  {
    match lookup
    case Some(q) => StockData(q)
    case None => HttpError(404, NotFoundDetail(symbol))
  }

  /** A symbol no source can price gets a 500 as written, where a 404 is
      evidently intended; found prices are answered alike. */
  lemma NotFoundBecomesServerError(lookup: Option<FinancialApi.Quote>, symbol: string)
    ensures lookup.None? ==>
      StockResponseAsWritten(lookup, symbol).status == 500 &&
      StockResponseFor(lookup, symbol).status == 404 &&
      StockResponseAsWritten(lookup, symbol) != StockResponseFor(lookup, symbol)
    ensures lookup.Some? ==> StockResponseAsWritten(lookup, symbol) == StockResponseFor(lookup, symbol)
  {
  }

  /** `/stock/{symbol}` as evidently intended: the price is looked up,
      through the cache, under the upper-cased symbol, and an unpriced
      symbol gets the 404 (the code as written answers it with
      `StockResponseAsWritten`). */
  method GetStock(cache: FinancialApi.PriceCache, symbol: string, now: real,
                  primary: FinancialApi.Provider, secondary: FinancialApi.Provider)
    returns (response: StockResponse)
    modifies cache
    ensures var l := FinancialApi.PriceLookup(old(cache.entries), Text.Upper(symbol), true, now, primary, secondary);
      cache.entries == l.cache && response == StockResponseFor(l.result, symbol)
  {
    var priceData := cache.GetStockPrice(Text.Upper(symbol), true, now, primary, secondary);
    response := StockResponseFor(priceData, symbol);
  }
}
