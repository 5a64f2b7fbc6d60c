/** The `OpsMemory` context provider: three remembered facts that are turned
    into standing instructions before an agent runs and refreshed from the
    user messages after it ran. */
module Memory {
  import opened Wrappers
  import opened Text
  import opened ContextPattern

  /** A chat role; the provider only compares its value with "user". */
  datatype Role = Role(value: string)

  /** A message content item: one that carries text, or any other kind. */
  datatype Content = TextContent(text: string) | OtherContent

  datatype ChatMessage = ChatMessage(role: Role, contents: seq<Content>)

  /** The provider's three fields, as `get_state` reports them. */
  datatype MemoryState = MemoryState(
    preferredLanguage: string,
    lastCustomer: Option<string>,
    lastService: Option<string>)

  const HebrewDirective: string :=
    "Respond in Hebrew when addressing the customer. Keep technical terms in English."

  /** The first instruction: the Hebrew directive when the lower-cased
      preference is "hebrew", otherwise a directive naming the preference. */
  function LanguageDirective(language: string): string
  {
    if Lower(language) == "hebrew" then HebrewDirective
    else "Respond in " + language + ". Keep answers concise."
  }

  function ServiceNote(service: string): string
  {
    "Context: Previous interaction involved service '" + service + "'."
  }

  function CustomerNote(customer: string): string
  {
    "Context: Previous customer was '" + customer + "'."
  }

  /** Python truthiness of an optional string: present and non-empty. */
  predicate IsSet(o: Option<string>)
  {
    o.Some? && o.value != ""
  }

  /** The instruction list `invoking` collects, in order. */
  function InstructionParts(state: MemoryState): seq<string>
  {
    [LanguageDirective(state.preferredLanguage)]
    + (if IsSet(state.lastService) then [ServiceNote(state.lastService.value)] else [])
    + (if IsSet(state.lastCustomer) then [CustomerNote(state.lastCustomer.value)] else [])
  }

  /** The instructions string: the parts joined by single spaces. */
  function Instructions(state: MemoryState): string
  {
    Join(InstructionParts(state), " ")
  }

  /** The text `invoked` reads from a message: each text content followed by
      a space, in order. */
  function MessageText(contents: seq<Content>): string
  {
    if |contents| == 0 then ""
    else
      var last := contents[|contents| - 1];
      MessageText(contents[..|contents| - 1]) + (if last.TextContent? then last.text + " " else "")
  }

  /** `_extract_context`: each of the two searches, when it matches,
      overwrites its own field. */
  function AfterExtract(state: MemoryState, text: string): MemoryState
  {
    var customer := Search(text, CustomerKeyword);
    var service := Search(text, ServiceKeyword);
    state.(lastCustomer := if customer.Some? then customer else state.lastCustomer,
           lastService := if service.Some? then service else state.lastService)
  }

  predicate IsUser(m: ChatMessage)
  {
    m.role.value == "user"
  }

  /** `invoked`: the user messages, in order, each extracted from. */
  function AfterMessages(state: MemoryState, messages: seq<ChatMessage>): MemoryState
  {
    if |messages| == 0 then state
    else
      var before := AfterMessages(state, messages[..|messages| - 1]);
      var m := messages[|messages| - 1];
      if IsUser(m) then AfterExtract(before, MessageText(m.contents)) else before
  }

  /** The user messages of a list, in order. */
  function UserMessages(messages: seq<ChatMessage>): (users: seq<ChatMessage>)
    ensures |users| <= |messages|
    ensures forall k :: 0 <= k < |users| ==> IsUser(users[k])
    ensures forall m :: m in users <==> m in messages && IsUser(m)
  {
    if |messages| == 0 then []
    else
      var m := messages[|messages| - 1];
      UserMessages(messages[..|messages| - 1]) + (if IsUser(m) then [m] else [])
  }

  class OpsMemory {
    var preferredLanguage: string
    var lastCustomer: Option<string>
    var lastService: Option<string>

    function State(): MemoryState
      reads this
    {
      MemoryState(preferredLanguage, lastCustomer, lastService)
    }

    /** A fresh memory prefers Hebrew and remembers no customer or service. */
    constructor ()
      ensures State() == MemoryState("hebrew", None, None)
    {
      preferredLanguage := "hebrew";
      lastCustomer := None;
      lastService := None;
    }

    /** `invoking`: always yields instructions, built from the current state. */
    method Invoking() returns (instructions: Option<string>)
      ensures instructions == Some(Instructions(State()))
    {
      var parts: seq<string> := [];
      if Lower(preferredLanguage) == "hebrew" {
        parts := parts + [HebrewDirective];
      } else {
        parts := parts + ["Respond in " + preferredLanguage + ". Keep answers concise."];
      }
      assert parts == [LanguageDirective(preferredLanguage)];
      if IsSet(lastService) {
        parts := parts + [ServiceNote(lastService.value)];
      }
      assert parts == [LanguageDirective(preferredLanguage)]
        + (if IsSet(lastService) then [ServiceNote(lastService.value)] else []);
      if IsSet(lastCustomer) {
        parts := parts + [CustomerNote(lastCustomer.value)];
      }
      assert parts == InstructionParts(State());
      instructions := if |parts| > 0 then Some(Join(parts, " ")) else None;
    }

    /** `invoked`: for each user message, gather its text and extract from it. */
    method Invoked(requestMessages: seq<ChatMessage>)
      modifies this
      ensures State() == AfterMessages(old(State()), requestMessages)
    {
      for i := 0 to |requestMessages|
        invariant State() == AfterMessages(old(State()), requestMessages[..i])
      {
        var msg := requestMessages[i];
        assert requestMessages[..i + 1][..i] == requestMessages[..i];
        if msg.role.value == "user" {
          var text := "";
          for j := 0 to |msg.contents|
            invariant text == MessageText(msg.contents[..j])
          {
            assert msg.contents[..j + 1][..j] == msg.contents[..j];
            match msg.contents[j]
            case TextContent(t) =>
              text := text + t + " ";
            case OtherContent =>
          }
          assert msg.contents[..|msg.contents|] == msg.contents;
          ExtractContext(text);
        }
      }
      assert requestMessages[..|requestMessages|] == requestMessages;
    }

    /** `_extract_context`: customer search first, then service search. */
    method ExtractContext(text: string)
      modifies this
      ensures State() == AfterExtract(old(State()), text)
    {
      var customerMatch := Search(text, CustomerKeyword);
      if customerMatch.Some? {
        lastCustomer := customerMatch;
      }
      var serviceMatch := Search(text, ServiceKeyword);
      if serviceMatch.Some? {
        lastService := serviceMatch;
      }
    }

    /** `set_language` changes only the preference. */
    method SetLanguage(language: string)
      modifies this
      ensures State() == old(State()).(preferredLanguage := language)
    {
      preferredLanguage := language;
    }

    /** `get_state` reports the three fields as they are. */
    method GetState() returns (state: MemoryState)
      ensures state.preferredLanguage == preferredLanguage
      ensures state.lastCustomer == lastCustomer && state.lastService == lastService
    {
      state := MemoryState(preferredLanguage, lastCustomer, lastService);
    }

    /** `clear` forgets customer and service and keeps the language. */
    method Clear()
      modifies this
      ensures State() == MemoryState(old(preferredLanguage), None, None)
    {
      lastCustomer := None;
      lastService := None;
    }
  }

  // ---------------------------------------------------------------------------
  // Lemmas

  /** The instruction list: the language directive first, then the service
      note exactly when a service is remembered, then the customer note
      exactly when a customer is remembered; nothing else. */
  lemma InstructionPartsLayout(state: MemoryState)
    ensures var parts := InstructionParts(state);
      |parts| == 1 + (if IsSet(state.lastService) then 1 else 0) + (if IsSet(state.lastCustomer) then 1 else 0)
      && parts[0] == LanguageDirective(state.preferredLanguage)
      && (IsSet(state.lastService) ==> parts[1] == ServiceNote(state.lastService.value))
      && (IsSet(state.lastCustomer) ==> parts[|parts| - 1] == CustomerNote(state.lastCustomer.value))
  {
  }

  /** The instructions are never empty and begin with the language directive,
      which is the Hebrew one exactly when the lower-cased preference is
      "hebrew". Remembered service and customer appear verbatim. */
  lemma InstructionsContents(state: MemoryState)
    ensures |Instructions(state)| > 0
    ensures LanguageDirective(state.preferredLanguage) <= Instructions(state)
    ensures Lower(state.preferredLanguage) == "hebrew" ==> HebrewDirective <= Instructions(state)
    ensures Lower(state.preferredLanguage) != "hebrew" ==>
      "Respond in " + state.preferredLanguage + ". Keep answers concise." <= Instructions(state)
    ensures IsSet(state.lastService) ==> IsInfix(ServiceNote(state.lastService.value), Instructions(state))
    ensures IsSet(state.lastCustomer) ==> IsInfix(CustomerNote(state.lastCustomer.value), Instructions(state))
  {
    var parts := InstructionParts(state);
    JoinStartsWithFirst(parts, " ");
    assert |HebrewDirective| > 0;
    if IsSet(state.lastService) {
      JoinContainsPart(parts, " ", 1);
    }
    if IsSet(state.lastCustomer) {
      JoinContainsPart(parts, " ", |parts| - 1);
    }
  }

  /** With nothing remembered (a fresh or cleared memory) the instructions are
      the language directive alone. */
  lemma InstructionsWithoutContext(language: string)
    ensures Instructions(MemoryState(language, None, None)) == LanguageDirective(language)
  {
  }

  /** A fresh memory instructs in Hebrew. */
  lemma FreshInstructions()
    ensures Instructions(MemoryState("hebrew", None, None)) == HebrewDirective
  {
    assert Lower("hebrew") == "hebrew";
  }

  /** Extraction never touches the language, and each field depends only on
      its own search and its own previous value. */
  lemma ExtractIndependent(state: MemoryState, text: string, other: MemoryState)
    ensures AfterExtract(state, text).preferredLanguage == state.preferredLanguage
    ensures other.lastCustomer == state.lastCustomer ==>
      AfterExtract(other, text).lastCustomer == AfterExtract(state, text).lastCustomer
    ensures other.lastService == state.lastService ==>
      AfterExtract(other, text).lastService == AfterExtract(state, text).lastService
  {
  }

  /** Without a customer match the customer is kept; with one, the customer
      becomes the greedy token of the leftmost match, a non-empty run of
      `[A-Za-z0-9_-]` after the keyword and at least one separator. */
  lemma ExtractCustomer(state: MemoryState, text: string, sp: Span)
    ensures (forall i :: 0 <= i <= |text| ==> !MatchesAt(text, CustomerKeyword, i)) ==>
      AfterExtract(state, text).lastCustomer == state.lastCustomer
    ensures (GreedyMatch(text, CustomerKeyword, sp)
             && forall i :: 0 <= i < sp.start ==> !MatchesAt(text, CustomerKeyword, i)) ==>
      AfterExtract(state, text).lastCustomer == Some(text[sp.tokenStart..sp.tokenEnd])
  {
    if GreedyMatch(text, CustomerKeyword, sp)
       && (forall i :: 0 <= i < sp.start ==> !MatchesAt(text, CustomerKeyword, i)) {
      SearchIsLeftmostGreedy(text, CustomerKeyword, sp);
    }
  }

  /** The same rule for the service. */
  lemma ExtractService(state: MemoryState, text: string, sp: Span)
    ensures (forall i :: 0 <= i <= |text| ==> !MatchesAt(text, ServiceKeyword, i)) ==>
      AfterExtract(state, text).lastService == state.lastService
    ensures (GreedyMatch(text, ServiceKeyword, sp)
             && forall i :: 0 <= i < sp.start ==> !MatchesAt(text, ServiceKeyword, i)) ==>
      AfterExtract(state, text).lastService == Some(text[sp.tokenStart..sp.tokenEnd])
  {
    if GreedyMatch(text, ServiceKeyword, sp)
       && (forall i :: 0 <= i < sp.start ==> !MatchesAt(text, ServiceKeyword, i)) {
      SearchIsLeftmostGreedy(text, ServiceKeyword, sp);
    }
  }

  /** Each text content appears in the message text verbatim, followed by a
      space. */
  lemma {:induction false} MessageTextShowsContents(contents: seq<Content>, k: nat)
    requires k < |contents| && contents[k].TextContent?
    ensures IsInfix(contents[k].text + " ", MessageText(contents))
  {
    var n := |contents|;
    var front := MessageText(contents[..n - 1]);
    if k == n - 1 {
      InfixOfConcat(front, contents[k].text + " ", "");
      assert front + (contents[k].text + " ") + "" == MessageText(contents);
    } else {
      MessageTextShowsContents(contents[..n - 1], k);
      var tail := if contents[n - 1].TextContent? then contents[n - 1].text + " " else "";
      InfixOfConcat("", front, tail);
      assert "" + front + tail == MessageText(contents);
      InfixTransitive(contents[k].text + " ", front, MessageText(contents));
    }
  }

  /** A single message is kept exactly when it is a user message. */
  lemma UserMessagesSingle(m: ChatMessage)
    ensures UserMessages([m]) == if IsUser(m) then [m] else []
  {
    assert [m][..0] == [];
  }

  /** The filter keeps the order: it distributes over concatenation, so
      with `UserMessagesSingle` it is the user messages of the list, each in
      its original place relative to the others. */
  lemma {:induction false} UserMessagesInOrder(a: seq<ChatMessage>, b: seq<ChatMessage>)
    ensures UserMessages(a + b) == UserMessages(a) + UserMessages(b)
    decreases |b|
  {
    if |b| == 0 {
      assert a + b == a;
    } else {
      var front := b[..|b| - 1];
      var m := b[|b| - 1];
      UserMessagesInOrder(a, front);
      assert (a + b)[..|a + b| - 1] == a + front;
      assert (a + b)[|a + b| - 1] == m;
      var tail := if IsUser(m) then [m] else [];
      assert UserMessages(a + b) == UserMessages(a + front) + tail;
      assert UserMessages(b) == UserMessages(front) + tail;
    }
  }

  /** Only user messages matter: dropping every other message changes
      nothing. */
  lemma {:induction false} OnlyUserMessagesCount(state: MemoryState, messages: seq<ChatMessage>)
    ensures AfterMessages(state, messages) == AfterMessages(state, UserMessages(messages))
  {
    if |messages| > 0 {
      var front := messages[..|messages| - 1];
      var m := messages[|messages| - 1];
      OnlyUserMessagesCount(state, front);
      var users := UserMessages(front);
      if IsUser(m) {
        assert UserMessages(messages) == users + [m];
        assert (users + [m])[..|users|] == users;
      } else {
        assert UserMessages(messages) == users;
      }
    }
  }

  /** Reading messages never changes the language preference. */
  lemma {:induction false} MessagesKeepLanguage(state: MemoryState, messages: seq<ChatMessage>)
    ensures AfterMessages(state, messages).preferredLanguage == state.preferredLanguage
  {
    if |messages| > 0 {
      MessagesKeepLanguage(state, messages[..|messages| - 1]);
    }
  }

  /** A later match overwrites an earlier one: the customer remembered after
      a list of messages is the one found in the last user message that has
      a customer match. */
  lemma {:induction false} LastCustomerWins(state: MemoryState, before: seq<ChatMessage>, m: ChatMessage,
                                            after: seq<ChatMessage>)
    requires IsUser(m) && Search(MessageText(m.contents), CustomerKeyword).Some?
    requires forall k :: 0 <= k < |after| && IsUser(after[k]) ==>
      Search(MessageText(after[k].contents), CustomerKeyword).None?
    ensures AfterMessages(state, before + [m] + after).lastCustomer
         == Search(MessageText(m.contents), CustomerKeyword)
    decreases |after|
  {
    var all := before + [m] + after;
    if |after| == 0 {
      assert all[..|all| - 1] == before;
    } else {
      var front := after[..|after| - 1];
      assert all[..|all| - 1] == before + [m] + front;
      LastCustomerWins(state, before, m, front);
    }
  }

  /** The same for the service. */
  lemma {:induction false} LastServiceWins(state: MemoryState, before: seq<ChatMessage>, m: ChatMessage,
                                           after: seq<ChatMessage>)
    requires IsUser(m) && Search(MessageText(m.contents), ServiceKeyword).Some?
    requires forall k :: 0 <= k < |after| && IsUser(after[k]) ==>
      Search(MessageText(after[k].contents), ServiceKeyword).None?
    ensures AfterMessages(state, before + [m] + after).lastService
         == Search(MessageText(m.contents), ServiceKeyword)
    decreases |after|
  {
    var all := before + [m] + after;
    if |after| == 0 {
      assert all[..|all| - 1] == before;
    } else {
      var front := after[..|after| - 1];
      assert all[..|all| - 1] == before + [m] + front;
      LastServiceWins(state, before, m, front);
    }
  }

  /** The customer search on "Customer: <c> Service: <s> " finds `c`. */
  lemma SampleCustomer(customer: string, service: string)
    requires |customer| >= 1 && forall k :: 0 <= k < |customer| ==> IsTokenChar(customer[k])
    ensures Search("Customer: " + customer + " Service: " + service + " ", CustomerKeyword) == Some(customer)
  {
    var c := CustomerKeyword;
    assert [c.upper] + c.tail == "Customer";
    var t := "Customer: " + customer + " Service: " + service + " ";
    assert t == [] + [c.upper] + c.tail + ": " + customer + (" Service: " + service + " ");
    MatchAfter(t, [], c, ": ", customer, " Service: " + service + " ");
  }

  /** The service search on the same text finds `s` when no service match
      can start before it, that is when no "s" or "S" in "Customer: <c> " is
      followed by "e". The "s" inside "Customer" is followed by "t", so this
      is a condition on the customer token alone: "acme-sales" passes,
      "xservice" does not. */
  lemma SampleService(customer: string, service: string)
    requires NoKeywordIn("Customer: " + customer + " ", ServiceKeyword)
    requires |service| >= 1 && forall k :: 0 <= k < |service| ==> IsTokenChar(service[k])
    ensures Search("Customer: " + customer + " Service: " + service + " ", ServiceKeyword) == Some(service)
  {
    var sv := ServiceKeyword;
    assert [sv.upper] + sv.tail == "Service";
    var p := "Customer: " + customer + " ";
    var t := "Customer: " + customer + " Service: " + service + " ";
    assert t == p + [sv.upper] + sv.tail + ": " + service + " ";
    MatchAfter(t, p, sv, ": ", service, " ");
  }

  /** A fresh memory that reads the user message "Customer: <c> Service: <s>"
      remembers both tokens and keeps Hebrew, so its next instructions name
      both (`RememberedTokensInInstructions`). No "s" or "S" of the customer
      token may be followed by "e", since that could start a service match
      before the real one. */
  lemma RecordedFacts(customer: string, service: string)
    requires |customer| >= 1 && forall k :: 0 <= k < |customer| ==> IsTokenChar(customer[k])
    requires NoKeywordIn("Customer: " + customer + " ", ServiceKeyword)
    requires |service| >= 1 && forall k :: 0 <= k < |service| ==> IsTokenChar(service[k])
    ensures AfterMessages(MemoryState("hebrew", None, None),
                          [ChatMessage(Role("user"), [TextContent("Customer: " + customer + " Service: " + service)])])
         == MemoryState("hebrew", Some(customer), Some(service))
  {
    var text := "Customer: " + customer + " Service: " + service;
    var contents := [TextContent(text)];
    assert contents[..|contents| - 1] == [];
    assert MessageText([]) == "";
    assert MessageText(contents) == text + " ";
    SampleCustomer(customer, service);
    SampleService(customer, service);
    var messages := [ChatMessage(Role("user"), contents)];
    assert messages[..|messages| - 1] == [];
  }

  /** A remembered customer or service token itself appears verbatim in the
      next instructions. */
  lemma RememberedTokensInInstructions(state: MemoryState)
    ensures IsSet(state.lastCustomer) ==> IsInfix(state.lastCustomer.value, Instructions(state))
    ensures IsSet(state.lastService) ==> IsInfix(state.lastService.value, Instructions(state))
  {
    InstructionsContents(state);
    if IsSet(state.lastCustomer) {
      var customer := state.lastCustomer.value;
      InfixOfConcat("Context: Previous customer was '", customer, "'.");
      InfixTransitive(customer, CustomerNote(customer), Instructions(state));
    }
    if IsSet(state.lastService) {
      var service := state.lastService.value;
      InfixOfConcat("Context: Previous interaction involved service '", service, "'.");
      InfixTransitive(service, ServiceNote(service), Instructions(state));
    }
  }
}
