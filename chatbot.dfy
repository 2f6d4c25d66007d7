/** The scripted property chatbot (`PropertyChatbot`) and its routes. The
    bot keeps one conversation context per user id; a message is lowercased
    and stripped, then the first group of keywords that occurs in it picks
    the answer, and the price, rooms and area answers store what they read
    from the message in the user's preferences. */
module Chatbot {
  import opened Common

  /** The preferences the bot stores: the budget (an int read from the
      message), the number of rooms (the digits as text) and the area name.
      These are the only keys the bot ever writes, so `None` stands for a
      key not yet present in the preference dictionary. */
  datatype Preferences = Preferences(budget: Option<int>, rooms: Option<string>, area: Option<string>)

  datatype UserContext = UserContext(stage: string, preferences: Preferences, lastSearch: Value)

  /** The context a user id gets with its first message. */
  const NewContext: UserContext := UserContext("greeting", Preferences(None, None, None), Null)

  datatype Reply = Reply(message: string, suggestions: seq<string>)

  /** The answer to one message and the user's context afterwards. */
  datatype Turn = Turn(reply: Result<Answer>, context: UserContext)

  // ---------------------------------------------------------------------
  // Picking the answer.
  // ---------------------------------------------------------------------

  datatype Intent = Greeting | Price | Rooms | Area | Search | Agent | Help | Fallback

  function Keywords(i: Intent): seq<string>
  {
    match i
    case Greeting => ["hello", "hi", "hey", "你好", "hola"]
    case Price => ["price", "cost", "budget", "under", "below", "$"]
    case Rooms => ["room", "bedroom", "bed"]
    case Area => ["area", "location", "district", "where", "central", "causeway", "tsim", "wan chai", "admiralty"]
    case Search => ["search", "find", "show", "available", "properties"]
    case Agent => ["agent", "contact", "call", "speak", "talk", "meet"]
    case Help => ["help", "what can you do", "options"]
    case Fallback => []
  }

  predicate Mentions(message: string, i: Intent)
  {
    AnyIn(Keywords(i), message)
  }

  /** The position of a group in the order the bot checks them. */
  function Rank(i: Intent): nat
  {
    match i
    case Greeting => 0
    case Price => 1
    case Rooms => 2
    case Area => 3
    case Search => 4
    case Agent => 5
    case Help => 6
    case Fallback => 7
  }

  /** The first keyword group found in the message, or `Fallback`: the
      group picked is mentioned, and no group checked before it is. */
  function IntentOf(message: string): (i: Intent)
    ensures i != Fallback ==> Mentions(message, i)
    ensures forall g :: Rank(g) < Rank(i) ==> !Mentions(message, g)
  {
    if Mentions(message, Greeting) then Greeting
    else if Mentions(message, Price) then Price
    else if Mentions(message, Rooms) then Rooms
    else if Mentions(message, Area) then Area
    else if Mentions(message, Search) then Search
    else if Mentions(message, Agent) then Agent
    else if Mentions(message, Help) then Help
    else Fallback
  }

  /** A group wins exactly when one of its keywords occurs in the message
      and no keyword of an earlier group does; the fallback answer is given
      exactly when no keyword of any group occurs. */
  lemma IntentOfMeaning(m: string)
    ensures IntentOf(m) == Greeting <==> Mentions(m, Greeting)
    ensures IntentOf(m) == Price <==> !Mentions(m, Greeting) && Mentions(m, Price)
    ensures IntentOf(m) == Rooms <==> !Mentions(m, Greeting) && !Mentions(m, Price) && Mentions(m, Rooms)
    ensures IntentOf(m) == Area
            <==> !Mentions(m, Greeting) && !Mentions(m, Price) && !Mentions(m, Rooms) && Mentions(m, Area)
    ensures IntentOf(m) == Search
            <==> !Mentions(m, Greeting) && !Mentions(m, Price) && !Mentions(m, Rooms) && !Mentions(m, Area)
                 && Mentions(m, Search)
    ensures IntentOf(m) == Agent
            <==> !Mentions(m, Greeting) && !Mentions(m, Price) && !Mentions(m, Rooms) && !Mentions(m, Area)
                 && !Mentions(m, Search) && Mentions(m, Agent)
    ensures IntentOf(m) == Help
            <==> !Mentions(m, Greeting) && !Mentions(m, Price) && !Mentions(m, Rooms) && !Mentions(m, Area)
                 && !Mentions(m, Search) && !Mentions(m, Agent) && Mentions(m, Help)
    ensures IntentOf(m) == Fallback
            <==> !Mentions(m, Greeting) && !Mentions(m, Price) && !Mentions(m, Rooms) && !Mentions(m, Area)
                 && !Mentions(m, Search) && !Mentions(m, Agent) && !Mentions(m, Help)
  {
  }

  // ---------------------------------------------------------------------
  // Reading numbers out of the message.
  // ---------------------------------------------------------------------

  /** The end of the run of digits that starts at `i`. */
  function DigitRunEnd(s: string, i: nat): (j: nat)
    requires i <= |s|
    ensures i <= j <= |s|
    ensures forall k :: i <= k < j ==> IsDigit(s[k])
    ensures j < |s| ==> !IsDigit(s[j])
    decreases |s| - i
  {
    if i < |s| && IsDigit(s[i]) then DigitRunEnd(s, i + 1) else i
  }

  /** `re.search(r'(\d+)', s)`: where the first run of digits starts and
      ends. The run is the leftmost one and as long as possible. */
  function FirstDigitRun(s: string): (r: Option<(nat, nat)>)
    ensures r.None? <==> forall k :: 0 <= k < |s| ==> !IsDigit(s[k])
    ensures r.Some? ==> r.value.0 < r.value.1 <= |s|
    ensures r.Some? ==> forall k :: 0 <= k < r.value.0 ==> !IsDigit(s[k])
    ensures r.Some? ==> forall k :: r.value.0 <= k < r.value.1 ==> IsDigit(s[k])
    ensures r.Some? && r.value.1 < |s| ==> !IsDigit(s[r.value.1])
  {
    match FirstIndex(s, IsDigit)
    case None => None
    case Some(i) => Some((i, DigitRunEnd(s, i)))
  }

  /** The text `re.search(r'(\d+)', s)` captures. */
  function RoomsText(s: string): (r: Option<string>)
    ensures r.Some? ==> |r.value| > 0 && AllDigits(r.value)
  {
    match FirstDigitRun(s)
    case None => None
    case Some((i, j)) => Some(s[i..j])
  }

  /** The text `re.search(r'(\d+,?\d*)', s)` captures: the first run of
      digits, and when a comma follows it, the comma and the digits after
      it. */
  function PriceText(s: string): (r: Option<string>)
    ensures r.None? <==> RoomsText(s).None?
    ensures r.Some? ==> RoomsText(s).value <= r.value
    ensures r.Some? ==> DigitsAndCommas(r.value)
  {
    match FirstDigitRun(s)
    case None => None
    case Some((i, j)) =>
      if j < |s| && s[j] == ',' then Some(s[i..DigitRunEnd(s, j + 1)]) else Some(s[i..j])
  }

  /** `s.replace(c, '')`. */
  function Without(s: string, c: char): (r: string)
    ensures forall k :: 0 <= k < |r| ==> r[k] != c
    ensures forall x :: x in r <==> x in s && x != c
  {
    if s == [] then [] else (if s[0] == c then [] else [s[0]]) + Without(s[1..], c)
  }

  /** Starts with a digit and holds only digits and commas. */
  predicate DigitsAndCommas(p: string)
  {
    |p| > 0 && IsDigit(p[0]) && forall k :: 0 <= k < |p| ==> IsDigit(p[k]) || p[k] == ','
  }

  /** The price capture is digits with at most one comma, so the budget
      text is a non-empty run of digits. */
  lemma BudgetDigits(s: string)
    requires PriceText(s).Some?
    ensures |Without(PriceText(s).value, ',')| > 0
    ensures AllDigits(Without(PriceText(s).value, ','))
  {
    CommasRemoved(PriceText(s).value);
  }

  lemma {:induction false} CommasRemoved(p: string)
    requires forall k :: 0 <= k < |p| ==> IsDigit(p[k]) || p[k] == ','
    ensures AllDigits(Without(p, ','))
    ensures |p| > 0 && IsDigit(p[0]) ==> |Without(p, ',')| > 0
  {
    if p != [] {
      CommasRemoved(p[1..]);
      assert Without(p, ',') == (if p[0] == ',' then [] else [p[0]]) + Without(p[1..], ',');
    }
  }

  /** `int(budget)` succeeds on the budget text and reads its digits. */
  lemma BudgetParses(s: string)
    requires PriceText(s).Some?
    ensures var b := Without(PriceText(s).value, ',');
      AllDigits(b) && PyInt(b) == Some(DigitsValue(b))
  {
    BudgetDigits(s);
    PyIntDigits(Without(PriceText(s).value, ','));
  }

  // ---------------------------------------------------------------------
  // Areas.
  // ---------------------------------------------------------------------

  datatype AreaChoice = AreaChoice(words: seq<string>, name: string)

  /** The areas the bot recognises, in the order it checks them. */
  const AreaChoices: seq<AreaChoice> := [
    AreaChoice(["central", "admiralty"], "Central/Admiralty"),
    AreaChoice(["causeway"], "Causeway Bay"),
    AreaChoice(["tsim"], "Tsim Sha Tsui"),
    AreaChoice(["wan chai"], "Wan Chai")
  ]

  /** The `areas` list: the name of every recognised area mentioned, in
      check order. */
  function AreasMentioned(message: string, choices: seq<AreaChoice>): seq<string>
  {
    if choices == [] then []
    else (if AnyIn(choices[0].words, message) then [choices[0].name] else []) + AreasMentioned(message, choices[1..])
  }

  /** The first entry of the `areas` list is the name of the first area
      whose words occur in the message; the list is empty exactly when no
      area does. */
  lemma {:induction false} FirstAreaMentioned(message: string, choices: seq<AreaChoice>)
    ensures AreasMentioned(message, choices) == [] <==> forall k :: 0 <= k < |choices| ==> !AnyIn(choices[k].words, message)
    ensures AreasMentioned(message, choices) != [] ==>
      exists k :: (0 <= k < |choices| && AnyIn(choices[k].words, message) &&
        AreasMentioned(message, choices)[0] == choices[k].name &&
        forall j :: 0 <= j < k ==> !AnyIn(choices[j].words, message))
  {
    if choices != [] {
      var rest := AreasMentioned(message, choices[1..]);
      FirstAreaMentioned(message, choices[1..]);
      if AnyIn(choices[0].words, message) {
        assert AreasMentioned(message, choices)[0] == choices[0].name;
      } else {
        assert AreasMentioned(message, choices) == rest;
        if rest != [] {
          var k :| 0 <= k < |choices[1..]| && AnyIn(choices[1..][k].words, message) &&
            rest[0] == choices[1..][k].name && forall j :: 0 <= j < k ==> !AnyIn(choices[1..][j].words, message);
          assert choices[k + 1] == choices[1..][k];
          forall j | 0 <= j < k + 1 ensures !AnyIn(choices[j].words, message) {
            if j > 0 {
              assert choices[j] == choices[1..][j - 1];
            }
          }
        } else {
          forall j | 0 <= j < |choices| ensures !AnyIn(choices[j].words, message) {
            if j > 0 {
              assert choices[j] == choices[1..][j - 1];
            }
          }
        }
      }
    }
  }

  // ---------------------------------------------------------------------
  // The answers.
  // ---------------------------------------------------------------------

  /** Which answer the bot gives; `Render` spells out its text and its
      suggestions. */
  datatype Answer =
    | Welcome
    | AskBudget
    | RoomsNoted(rooms: string)
    | AskRooms
    | AreaNoted(area: string)
    | AskArea
    | Searching(criteria: seq<string>)
    | AskPreferences
    | OfferAgent
    | OfferHelp
    | AskSpecifics

  /** Formatting the budget text with a thousands separator raises, since
      the text was never converted: Python refuses ',' with a string. */
  const BudgetFormatError: string := "Cannot specify ',' with 's'."

  /** The criteria the search answer lists: budget, rooms, area, each when
      stored. */
  function SearchCriteria(p: Preferences): seq<string>
  {
    (if p.budget.Some? then ["Budget: Under $" + FormatThousands(p.budget.value)] else [])
    + (if p.rooms.Some? then ["Bedrooms: " + p.rooms.value] else [])
    + (if p.area.Some? then ["Area: " + p.area.value] else [])
  }

  function SearchAnswer(p: Preferences): Answer
  {
    if SearchCriteria(p) != [] then Searching(SearchCriteria(p)) else AskPreferences
  }

  function Render(a: Answer): Reply
  {
    match a
    case Welcome => Reply(
      "Hello! 👋 I'm your property assistant. I can help you find the perfect rental property in Hong Kong. What type of property are you looking for?",
      ["Show me 1-bedroom apartments", "I need a 2-bedroom place", "What's available under $20,000?", "Properties in Central area"])
    case AskBudget => Reply(
      "What's your budget range? Please let me know your maximum monthly rent.",
      ["Under $15,000", "$15,000 - $25,000", "$25,000 - $40,000", "Above $40,000"])
    case RoomsNoted(rooms) => Reply(
      "Perfect! Looking for " + rooms + "-bedroom properties. What's your budget range?",
      ["Under $20,000", "$20,000 - $30,000", "$30,000 - $50,000", "Budget is flexible"])
    case AskRooms => Reply(
      "How many bedrooms do you need?",
      ["Studio/1 bedroom", "2 bedrooms", "3 bedrooms", "4+ bedrooms"])
    case AreaNoted(area) => Reply(
      "Excellent choice! " + area + " is a great area. Let me search for available properties that match your criteria.",
      ["Search now", "Add more preferences", "Show me all options", "Contact an agent"])
    case AskArea => Reply(
      "Which area interests you most?",
      ["Hong Kong Island", "Kowloon", "New Territories", "No preference"])
    case Searching(criteria) => Reply(
      "🔍 Searching for properties with your criteria: " + Join(criteria, ", ")
      + "\n\nI found several matching properties! You can view them in the listings above. Would you like me to connect you with an agent for more details?",
      ["Contact an agent", "Refine my search", "Save these results", "Start over"])
    case AskPreferences => Reply(
      "I'd be happy to search for properties! Please tell me your preferences first - budget, number of bedrooms, and preferred area.",
      ["I need a 2-bedroom under $25,000", "Show me 1-bedroom in Central", "Budget under $20,000", "Any 3-bedroom apartment"])
    case OfferAgent => Reply(
      "I'll connect you with one of our experienced property agents! 👨‍💼\n\nOur agents can:\n• Arrange property viewings\n• Provide detailed property information\n• Assist with rental applications\n• Answer specific questions\n\nPlease provide your contact details and preferred contact method.",
      ["WhatsApp contact", "Phone call", "Email contact", "Schedule viewing"])
    case OfferHelp => Reply(
      "I'm here to help you find the perfect rental property! 🏠\n\nI can help you with:\n• Finding properties by budget, size, and location\n• Providing property details and photos\n• Connecting you with our agents\n• Scheduling property viewings\n• Answering questions about rentals\n\nWhat would you like to do?",
      ["Find properties", "Contact an agent", "Learn about areas", "Rental process info"])
    case AskSpecifics => Reply(
      "I understand you're looking for property information. Could you please be more specific about what you need? For example, your budget, preferred number of bedrooms, or area of interest?",
      ["I need help finding a property", "What's my budget options?", "Show me available areas", "Contact an agent"])
  }

  function RenderResult(r: Result<Answer>): Result<Reply>
  {
    match r
    case Ok(a) => Ok(Render(a))
    case Err(e) => Err(e)
  }

  /** The price answer: with a number in the message the budget is stored
      and formatting the answer raises; without one the bot asks for the
      budget. */
  function PriceTurn(ctx: UserContext, message: string): (t: Turn)
    ensures t.reply.Ok? <==> PriceText(message).None?
    ensures t.reply.Ok? ==> t == Turn(Ok(AskBudget), ctx)
    ensures t.context.stage == ctx.stage && t.context.lastSearch == ctx.lastSearch
    ensures t.context.preferences.rooms == ctx.preferences.rooms && t.context.preferences.area == ctx.preferences.area
    ensures t.context.preferences.budget != ctx.preferences.budget ==>
      PriceText(message).Some? && t.context.preferences.budget == PyInt(Without(PriceText(message).value, ','))
  {
    match PriceText(message)
    case None => Turn(Ok(AskBudget), ctx)
    case Some(matched) =>
      match PyInt(Without(matched, ','))
      case None => Turn(Err(Internal("invalid literal for int()")), ctx)
      case Some(budget) => Turn(Err(Internal(BudgetFormatError)), ctx.(preferences := ctx.preferences.(budget := Some(budget))))
  }

  function RoomsTurn(ctx: UserContext, message: string): Turn
  {
    match RoomsText(message)
    case None => Turn(Ok(AskRooms), ctx)
    case Some(rooms) => Turn(Ok(RoomsNoted(rooms)), ctx.(preferences := ctx.preferences.(rooms := Some(rooms))))
  }

  function AreaTurn(ctx: UserContext, message: string): Turn
  {
    var areas := AreasMentioned(message, AreaChoices);
    if areas == [] then Turn(Ok(AskArea), ctx)
    else Turn(Ok(AreaNoted(areas[0])), ctx.(preferences := ctx.preferences.(area := Some(areas[0]))))
  }

  /** The answer to a lowercased and stripped message. */
  function Respond(ctx: UserContext, message: string): (t: Turn)
    ensures t.reply.Err? ==> IntentOf(message) == Price
    ensures IntentOf(message) != Greeting ==> t.context.stage == ctx.stage
    ensures t.context.lastSearch == ctx.lastSearch
    ensures IntentOf(message) !in {Price, Rooms, Area} ==> t.context.preferences == ctx.preferences
  {
    match IntentOf(message)
    case Greeting => Turn(Ok(Welcome), ctx.(stage := "greeting"))
    case Price => PriceTurn(ctx, message)
    case Rooms => RoomsTurn(ctx, message)
    case Area => AreaTurn(ctx, message)
    case Search => Turn(Ok(SearchAnswer(ctx.preferences)), ctx)
    case Agent => Turn(Ok(OfferAgent), ctx)
    case Help => Turn(Ok(OfferHelp), ctx)
    case Fallback => Turn(Ok(AskSpecifics), ctx)
  }

  function Normalize(message: string): string
  {
    Strip(Lower(message))
  }

  function ContextFor(contexts: map<Value, UserContext>, key: Value): UserContext
  {
    if key in contexts then contexts[key] else NewContext
  }

  /** The dictionary key a JSON user id becomes: `True` and `False` are the
      keys 1 and 0, lists and objects cannot be keys. */
  function KeyOf(v: Value): Option<Value>
  {
    match v
    case Bool(b) => Some(Int(if b then 1 else 0))
    case List(_) => None
    case Obj(_) => None
    case _ => Some(v)
  }

  function TypeName(v: Value): string
  {
    match v
    case Null => "NoneType"
    case Bool(_) => "bool"
    case Int(_) => "int"
    case Str(_) => "str"
    case List(_) => "list"
    case Obj(_) => "dict"
  }

  // ---------------------------------------------------------------------
  // Properties of one answer.
  // ---------------------------------------------------------------------

  /** Keywords are matched as substrings, not as words: "which area"
      holds "hi", so it gets the greeting rather than the area question. */
  lemma KeywordInsideWord()
    ensures IntentOf("which area") == Greeting
  {
    assert "which area"[1..][..2] == "hi";
    assert IsSubstring("hi", "which area"[1..]);
    assert "hi" in Keywords(Greeting);
  }

  /** A price message with a number stores the number (commas dropped) as
      the budget, keeps the other preferences, and fails to answer; without
      a number nothing is stored. */
  lemma PriceStoresBudget(ctx: UserContext, message: string)
    requires IntentOf(message) == Price
    ensures PriceText(message).None? ==> Respond(ctx, message) == Turn(Ok(AskBudget), ctx)
    ensures PriceText(message).Some? ==>
      var b := Without(PriceText(message).value, ',');
      && PyInt(b).Some?
      && Respond(ctx, message).reply == Err(Internal(BudgetFormatError))
      && Respond(ctx, message).context == ctx.(preferences := ctx.preferences.(budget := PyInt(b)))
  {
    if PriceText(message).Some? {
      BudgetParses(message);
    }
  }

  /** A rooms message with a number stores the first run of digits as the
      rooms; without one nothing is stored. */
  lemma RoomsStoresDigits(ctx: UserContext, message: string)
    requires IntentOf(message) == Rooms
    ensures RoomsText(message).None? ==> Respond(ctx, message) == Turn(Ok(AskRooms), ctx)
    ensures RoomsText(message).Some? ==>
      && Respond(ctx, message).reply.Ok?
      && Respond(ctx, message).context == ctx.(preferences := ctx.preferences.(rooms := RoomsText(message)))
  {
  }

  /** An area message stores the first recognised area in check order, so
      Central/Admiralty wins over every other; with no recognised area
      nothing is stored. */
  lemma AreaStoresFirst(ctx: UserContext, message: string)
    requires IntentOf(message) == Area
    ensures (forall k :: 0 <= k < |AreaChoices| ==> !AnyIn(AreaChoices[k].words, message)) ==>
      Respond(ctx, message) == Turn(Ok(AskArea), ctx)
    ensures forall k :: 0 <= k < |AreaChoices| && AnyIn(AreaChoices[k].words, message)
                        && (forall j :: 0 <= j < k ==> !AnyIn(AreaChoices[j].words, message)) ==>
      && Respond(ctx, message).reply == Ok(AreaNoted(AreaChoices[k].name))
      && Respond(ctx, message).context == ctx.(preferences := ctx.preferences.(area := Some(AreaChoices[k].name)))
  {
    FirstAreaMentioned(message, AreaChoices);
    forall k | 0 <= k < |AreaChoices| && AnyIn(AreaChoices[k].words, message)
               && (forall j :: 0 <= j < k ==> !AnyIn(AreaChoices[j].words, message))
      ensures AreasMentioned(message, AreaChoices)[0] == AreaChoices[k].name
    {
      var k' :| 0 <= k' < |AreaChoices| && AnyIn(AreaChoices[k'].words, message) &&
        AreasMentioned(message, AreaChoices)[0] == AreaChoices[k'].name &&
        forall j :: 0 <= j < k' ==> !AnyIn(AreaChoices[j].words, message);
      assert k' == k;
    }
  }

  /** No answer moves the conversation on: the stage stays 'greeting' and
      the last search stays unset. */
  lemma RespondKeepsStage(ctx: UserContext, message: string)
    ensures Respond(ctx, message).context.lastSearch == ctx.lastSearch
    ensures ctx.stage == "greeting" ==> Respond(ctx, message).context.stage == "greeting"
  {
  }

  /** Only the price, rooms and area answers change a preference, each only
      its own, and no answer removes a stored preference. */
  lemma RespondChangesOwnPreference(ctx: UserContext, message: string)
    ensures var p := Respond(ctx, message).context.preferences;
      && (IntentOf(message) != Price ==> p.budget == ctx.preferences.budget)
      && (IntentOf(message) != Rooms ==> p.rooms == ctx.preferences.rooms)
      && (IntentOf(message) != Area ==> p.area == ctx.preferences.area)
      && (ctx.preferences.budget.Some? ==> p.budget.Some?)
      && (ctx.preferences.rooms.Some? ==> p.rooms.Some?)
      && (ctx.preferences.area.Some? ==> p.area.Some?)
  {
  }

  /** The search answer lists one criterion per stored preference and asks
      for preferences when none is stored. */
  lemma SearchListsPreferences(p: Preferences)
    ensures |SearchCriteria(p)| == (if p.budget.Some? then 1 else 0) + (if p.rooms.Some? then 1 else 0) + (if p.area.Some? then 1 else 0)
    ensures SearchCriteria(p) == [] <==> p == Preferences(None, None, None)
  {
  }

  // ---------------------------------------------------------------------
  // The chatbot and its routes.
  // ---------------------------------------------------------------------

  /** The keyword tests of `process_message` in their order, on the
      lowercased, stripped message: the answer and the user's context
      afterwards. */
  method Converse(ctx: UserContext, text: string) returns (r: Result<Answer>, next: UserContext)
    ensures Turn(r, next) == Respond(ctx, text)
  {
    next := ctx;
    if Mentions(text, Greeting) {
      next := ctx.(stage := "greeting");
      return Ok(Welcome), next;
    }
    if Mentions(text, Price) {
      var matched := PriceText(text);
      if matched.None? {
        return Ok(AskBudget), next;
      }
      var budget := PyInt(Without(matched.value, ','));
      if budget.None? {
        return Err(Internal("invalid literal for int()")), next;
      }
      next := ctx.(preferences := ctx.preferences.(budget := budget));
      return Err(Internal(BudgetFormatError)), next;
    }
    if Mentions(text, Rooms) {
      var rooms := RoomsText(text);
      if rooms.None? {
        return Ok(AskRooms), next;
      }
      next := ctx.(preferences := ctx.preferences.(rooms := rooms));
      return Ok(RoomsNoted(rooms.value)), next;
    }
    if Mentions(text, Area) {
      var areas := AreasMentioned(text, AreaChoices);
      if areas == [] {
        return Ok(AskArea), next;
      }
      next := ctx.(preferences := ctx.preferences.(area := Some(areas[0])));
      return Ok(AreaNoted(areas[0])), next;
    }
    if Mentions(text, Search) {
      return Ok(SearchAnswer(ctx.preferences)), next;
    }
    if Mentions(text, Agent) {
      return Ok(OfferAgent), next;
    }
    if Mentions(text, Help) {
      return Ok(OfferHelp), next;
    }
    return Ok(AskSpecifics), next;
  }

  /** Every stored context is at the greeting stage with no last search:
      no answer moves a conversation on. */
  predicate AllAtGreeting(contexts: map<Value, UserContext>)
  {
    forall key :: key in contexts ==> contexts[key].stage == "greeting" && contexts[key].lastSearch == Null
  }

  lemma GreetingKept(contexts: map<Value, UserContext>, key: Value, c: UserContext)
    requires AllAtGreeting(contexts)
    requires c.stage == "greeting" && c.lastSearch == Null
    ensures AllAtGreeting(contexts[key := c])
  {
  }

  class PropertyChatbot {
    /** `self.context`: one conversation context per user id. */
    var contexts: map<Value, UserContext>

    constructor()
      ensures contexts == map[]
    {
      contexts := map[];
    }

    /** The `active_users` count of the health route. */
    function ActiveUsers(): nat
      reads this
    {
      |contexts|
    }

    /** `process_message`: the message is lowercased and stripped, then
        answered. */
    method ProcessMessage(message: string, key: Value) returns (r: Result<Answer>)
      modifies this
      ensures var t := Respond(ContextFor(old(contexts), key), Normalize(message));
        r == t.reply && contexts == old(contexts)[key := t.context]
      ensures ActiveUsers() == old(ActiveUsers()) + (if key in old(contexts) then 0 else 1)
      ensures AllAtGreeting(old(contexts)) ==> AllAtGreeting(contexts)
    {
      r := ProcessText(Strip(Lower(message)), key);
    }

    /** The rest of `process_message` on the normalised text: the context
        of a new user id is created first, then the first keyword group in
        the text picks the answer. Only this user's context changes. */
    method ProcessText(text: string, key: Value) returns (r: Result<Answer>)
      modifies this
      ensures var t := Respond(ContextFor(old(contexts), key), text);
        r == t.reply && contexts == old(contexts)[key := t.context]
      ensures ActiveUsers() == old(ActiveUsers()) + (if key in old(contexts) then 0 else 1)
      ensures AllAtGreeting(old(contexts)) ==> AllAtGreeting(contexts)
    {
      var ctx := if key in contexts then contexts[key] else NewContext;
      var next;
      r, next := Converse(ctx, text);
      RespondKeepsStage(ctx, text);
      if AllAtGreeting(contexts) {
        GreetingKept(contexts, key, next);
      }
      contexts := contexts[key := next];
    }

    /** The message route: a body without a message is refused, a message
        that is not text or a user id that cannot be a key fails, and
        otherwise the bot answers for the user id given, 'default' when
        none is. */
    method ChatMessage(data: Option<Dict>) returns (r: Result<Reply>)
      modifies this
      ensures data.None? || "message" !in data.value ==>
        r == Err(BadRequest("Message is required")) && contexts == old(contexts)
      ensures data.Some? && "message" in data.value && !data.value["message"].Str? ==>
        r.Err? && contexts == old(contexts)
      ensures data.Some? && "message" in data.value && data.value["message"].Str?
              && KeyOf(Get(data.value, "user_id", Str("default"))).None? ==>
        r.Err? && contexts == old(contexts)
      ensures data.Some? && "message" in data.value && data.value["message"].Str?
              && KeyOf(Get(data.value, "user_id", Str("default"))).Some? ==>
        var key := KeyOf(Get(data.value, "user_id", Str("default"))).value;
        var t := Respond(ContextFor(old(contexts), key), Normalize(data.value["message"].s));
        r == RenderResult(t.reply) && contexts == old(contexts)[key := t.context]
    {
      if data.None? || "message" !in data.value {
        return Err(BadRequest("Message is required"));
      }
      var message := data.value["message"];
      if !message.Str? {
        return Err(Internal("'" + TypeName(message) + "' object has no attribute 'lower'"));
      }
      var userId := Get(data.value, "user_id", Str("default"));
      var key := KeyOf(userId);
      if key.None? {
        return Err(Internal("unhashable type: '" + TypeName(userId) + "'"));
      }
      var answer := ProcessMessage(message.s, key.value);
      r := RenderResult(answer);
    }

    /** The reset route: only the given user's context is removed, and
        nothing happens when it has none. */
    method ResetChat(data: Option<Dict>) returns (r: Result<()>)
      modifies this
      ensures var userId := if data.None? || data.value == map[] then Str("default") else Get(data.value, "user_id", Str("default"));
        && (KeyOf(userId).None? ==> r.Err? && contexts == old(contexts))
        && (KeyOf(userId).Some? ==> r.Ok? && contexts == old(contexts) - {KeyOf(userId).value})
      ensures r.Ok? ==> ActiveUsers() == old(ActiveUsers()) || ActiveUsers() == old(ActiveUsers()) - 1
    {
      var userId := if data.None? || data.value == map[] then Str("default") else Get(data.value, "user_id", Str("default"));
      var key := KeyOf(userId);
      if key.None? {
        return Err(Internal("unhashable type: '" + TypeName(userId) + "'"));
      }
      if key.value in contexts {
        contexts := map k | k in contexts && k != key.value :: contexts[k];
        assert contexts == old(contexts) - {key.value};
      }
      assert contexts == old(contexts) - {key.value};
      return Ok(());
    }
  }
}
