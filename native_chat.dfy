/** The chat screen of the native front-end: its component state and the three
    handlers that change it (create, delete, send), plus the selection and the
    two text fields the screen edits directly. */
module NativeChat {
  import opened ChatModel

  /** Target resolution of `sendMessage`: the current conversation when the lookup
      finds one; otherwise one fresh conversation, titled from the input, inserted
      at the head and selected. */
  function ResolveTarget(cs: seq<Conversation>, sel: Option<nat>, now: nat, input: string): (r: Resolved)
    ensures r.selected == Some(r.target.id)
  {
    match Find(cs, sel)
    case Some(c) => Resolved(c, cs, sel)
    case None =>
      var created := Conversation(now, DeriveTitle(input), [], now);
      Resolved(created, [created] + cs, Some(now))
  }

  /** A send with no current conversation: exactly one conversation is inserted at
      the head, titled from the input, holding just the user turn, and selected; the
      request is the user turn alone. */
  lemma FreshSendShape(cs: seq<Conversation>, sel: Option<nat>, now: nat, input: string)
    requires Find(cs, sel).None?
    ensures
      var r := ResolveTarget(cs, sel, now, input);
      var user := UserMessage(now, input);
      var after := AppendWhere(r.conversations, r.target.id, user);
      && |after| == |cs| + 1
      && after[0] == Conversation(now, DeriveTitle(input), [user], now)
      && (forall i :: 1 <= i < |after| && cs[i - 1].id != now ==> after[i] == cs[i - 1])
      && r.selected == Some(now)
      && History(r.target.messages, input) == [Turn(User, input)]
  {
    var r := ResolveTarget(cs, sel, now, input);
    var user := UserMessage(now, input);
    assert r.conversations[0] == r.target;
    assert [] + [user] == [user];
    assert Turns([]) == [];
  }

  /** Resolution selects its target: afterwards the lookup of the selection finds
      exactly the target, so the optimistic append and the reply go where the user
      is looking. A created target is titled from the input, within the title bound,
      and the list grows by one; an existing one leaves list and selection alone. */
  lemma ResolvedTargetIsCurrent(cs: seq<Conversation>, sel: Option<nat>, now: nat, input: string)
    ensures
      var r := ResolveTarget(cs, sel, now, input);
      && Find(r.conversations, r.selected) == Some(r.target)
      && (Find(cs, sel).Some? ==> r.conversations == cs && r.selected == sel)
      && (Find(cs, sel).None? ==>
            && r.conversations == [r.target] + cs
            && r.target == Conversation(now, DeriveTitle(input), [], now)
            && |r.target.title| <= TitleLength + |Ellipsis|
            && r.selected == Some(now))
  {
    var r := ResolveTarget(cs, sel, now, input);
    if Find(cs, sel).None? {
      FindHead(r.target, r.conversations[1..]);
      assert [r.target] + r.conversations[1..] == r.conversations;
    }
  }

  class ChatScreen {
    var conversations: seq<Conversation>
    var currentConversationId: Option<nat>
    var inputMessage: string
    var isLoading: bool
    var apiKey: string

    /** `currentConversation`: the first conversation whose id is the selection;
        nothing when no conversation carries it, or when nothing is selected. */
    function CurrentConversation(): (r: Option<Conversation>)
      reads this
      ensures r.None? <==> forall i :: 0 <= i < |conversations| ==> Some(conversations[i].id) != currentConversationId
      ensures r.Some? ==> r.value in conversations && Some(r.value.id) == currentConversationId
    {
      Find(conversations, currentConversationId)
    }

    ghost predicate Valid()
      reads this
    {
      SelectionValid(conversations, currentConversationId)
    }

    /** A fresh screen; `storedKey` is what loading the saved key produced ("" when none). */
    constructor (storedKey: string)
      ensures conversations == [] && currentConversationId == None
      ensures inputMessage == [] && !isLoading && apiKey == storedKey
      ensures Valid()
    {
      conversations := [];
      currentConversationId := None;
      inputMessage := "";
      isLoading := false;
      apiKey := storedKey;
    }

    method CreateNewConversation(now: nat)
      modifies this
      ensures conversations == [Conversation(now, PlaceholderTitle, [], now)] + old(conversations)
      ensures currentConversationId == Some(now)
      ensures CurrentConversation() == Some(conversations[0]) && Valid()
      ensures inputMessage == old(inputMessage) && isLoading == old(isLoading) && apiKey == old(apiKey)
    {
      var created := Conversation(now, PlaceholderTitle, [], now);
      conversations := [created] + conversations;
      currentConversationId := Some(created.id);
    }

    method DeleteConversation(id: nat)
      modifies this
      ensures conversations == Without(old(conversations), id)
      ensures currentConversationId == if old(currentConversationId) == Some(id) then None else old(currentConversationId)
      ensures old(currentConversationId) != Some(id) ==> CurrentConversation() == old(CurrentConversation())
      ensures old(Valid()) ==> Valid()
      ensures inputMessage == old(inputMessage) && isLoading == old(isLoading) && apiKey == old(apiKey)
    {
      if currentConversationId != Some(id) {
        FindAfterWithout(conversations, id, currentConversationId);
      }
      conversations := Without(conversations, id);
      if currentConversationId == Some(id) {
        currentConversationId := None;
      }
    }

    /** Pressing a conversation in the list selects its id; the id is not checked. */
    method SelectConversation(id: nat)
      modifies this
      ensures currentConversationId == Some(id)
      ensures Valid() <==> exists i :: 0 <= i < |conversations| && conversations[i].id == id
      ensures conversations == old(conversations)
      ensures inputMessage == old(inputMessage) && isLoading == old(isLoading) && apiKey == old(apiKey)
    {
      currentConversationId := Some(id);
    }

    method SetInputMessage(text: string)
      modifies this`inputMessage
      ensures inputMessage == text
    {
      inputMessage := text;
    }

    method SetApiKey(key: string)
      modifies this`apiKey
      ensures apiKey == key
    {
      apiKey := key;
    }

    /** The target-resolution step of `sendMessage`: keep the current conversation,
        or insert and select one conversation titled from the input. */
    method OpenTarget(now: nat) returns (target: Conversation)
      modifies this
      ensures
        var r := ResolveTarget(old(conversations), old(currentConversationId), now, old(inputMessage));
        target == r.target && conversations == r.conversations && currentConversationId == r.selected
      ensures inputMessage == old(inputMessage) && isLoading == old(isLoading) && apiKey == old(apiKey)
    {
      var conversation := CurrentConversation();
      if conversation.None? {
        var created := Conversation(now, DeriveTitle(inputMessage), [], now);
        conversations := [created] + conversations;
        currentConversationId := Some(created.id);
        conversation := Some(created);
      }
      target := conversation.value;
    }

    /** The rest of `sendMessage` before the request: the user message is appended
        to every conversation with the target's id, the input is cleared and the busy
        flag raised; the request is the target's turns as captured, plus the input. */
    method AddUserTurn(target: Conversation, now: nat) returns (pending: PendingSend)
      modifies this
      ensures pending == PendingSend(target.id, History(target.messages, old(inputMessage)))
      ensures conversations == AppendWhere(old(conversations), target.id, UserMessage(now, old(inputMessage)))
      ensures currentConversationId == old(currentConversationId)
      ensures inputMessage == [] && isLoading && apiKey == old(apiKey)
    {
      var currentInput := inputMessage;
      conversations := AppendWhere(conversations, target.id, UserMessage(now, currentInput));
      inputMessage := "";
      isLoading := true;
      pending := PendingSend(target.id, History(target.messages, currentInput));
    }

    /** `sendMessage` up to the request: the guard, target resolution, the
        optimistic user turn, clearing the input and raising the busy flag.
        Returns the target id and the request history, or None when rejected. */
    method BeginSend(now: nat) returns (pending: Option<PendingSend>, ghost resolved: Resolved)
      modifies this
      ensures pending.None? <==> !Accepts(old(inputMessage), old(apiKey))
      ensures pending.None? ==>
        && conversations == old(conversations) && currentConversationId == old(currentConversationId)
        && inputMessage == old(inputMessage) && isLoading == old(isLoading)
      ensures resolved == ResolveTarget(old(conversations), old(currentConversationId), now, old(inputMessage))
      ensures pending.Some? ==>
        var r, user := resolved, UserMessage(now, old(inputMessage));
        && pending.value == PendingSend(r.target.id, History(r.target.messages, old(inputMessage)))
        && conversations == AppendWhere(r.conversations, r.target.id, user)
        && currentConversationId == r.selected
        && CurrentConversation() == Some(r.target.(messages := r.target.messages + [user]))
        && inputMessage == [] && isLoading
        && Valid()
      ensures apiKey == old(apiKey)
    {
      resolved := ResolveTarget(conversations, currentConversationId, now, inputMessage);
      if IsBlank(inputMessage) || apiKey == [] {
        return None, resolved;
      }
      var target := OpenTarget(now);
      ResolvedTargetIsCurrent(old(conversations), old(currentConversationId), now, old(inputMessage));
      FindTargetAfterAppend(conversations, currentConversationId, target, UserMessage(now, inputMessage));
      var request := AddUserTurn(target, now);
      pending := Some(request);
    }

    /** `sendMessage` after the request resolved: one assistant turn (the completion,
        or the apology) is appended to every conversation with the target id, and
        the busy flag drops. A target deleted in the meantime makes the append a no-op. */
    method CompleteSend(target: nat, now: nat, outcome: Outcome)
      modifies this
      ensures conversations == AppendWhere(old(conversations), target, ReplyMessage(now, outcome))
      ensures (forall i :: 0 <= i < |old(conversations)| ==> old(conversations)[i].id != target) ==>
        conversations == old(conversations)
      ensures !isLoading
      ensures currentConversationId == old(currentConversationId)
      ensures inputMessage == old(inputMessage) && apiKey == old(apiKey)
      ensures old(Valid()) ==> Valid()
    {
      var reply := ReplyMessage(now, outcome);
      SelectionValidAfterAppend(conversations, target, reply, currentConversationId);
      if forall i :: 0 <= i < |conversations| ==> conversations[i].id != target {
        AppendWhereAbsent(conversations, target, reply);
      }
      conversations := AppendWhere(conversations, target, reply);
      isLoading := false;
    }

    /** A whole `sendMessage` with nothing interleaved at the await: a rejected send
        changes nothing; an accepted one leaves every conversation with the target
        id one user turn and one assistant turn longer. */
    method Send(now: nat, later: nat, outcome: Outcome) returns (pending: Option<PendingSend>)
      modifies this
      ensures pending.None? <==> !Accepts(old(inputMessage), old(apiKey))
      ensures pending.None? ==>
        && conversations == old(conversations) && currentConversationId == old(currentConversationId)
        && inputMessage == old(inputMessage) && isLoading == old(isLoading)
      ensures pending.Some? ==>
        var r := ResolveTarget(old(conversations), old(currentConversationId), now, old(inputMessage));
        var user := UserMessage(now, old(inputMessage));
        var reply := ReplyMessage(later, outcome);
        && conversations == AppendWhere(AppendWhere(r.conversations, r.target.id, user), r.target.id, reply)
        && |conversations| == |r.conversations|
        && (forall i :: 0 <= i < |r.conversations| && r.conversations[i].id == r.target.id ==>
              conversations[i].messages == r.conversations[i].messages + [user, reply])
        && (forall i :: 0 <= i < |r.conversations| && r.conversations[i].id != r.target.id ==>
              conversations[i] == r.conversations[i])
        && currentConversationId == r.selected
        && inputMessage == [] && !isLoading
      ensures apiKey == old(apiKey)
      ensures old(Valid()) ==> Valid()
    {
      ghost var user := UserMessage(now, inputMessage);
      ghost var r;
      pending, r := BeginSend(now);
      if pending.Some? {
        CompleteSend(pending.value.target, later, outcome);
        AppendPair(r.conversations, r.target.id, user, ReplyMessage(later, outcome));
      }
    }
  }

  /** The first exchange on a fresh screen: "Hola" answered successfully yields exactly
      one conversation, titled "Hola", holding the user turn and the reply. */
  method FirstExchange(now: nat, later: nat) returns (convs: seq<Conversation>, busy: bool)
    ensures |convs| == 1
    ensures convs[0].title == "Hola"
    ensures convs[0].messages == [
      Message(now, "Hola", User, now),
      Message(later + 1, "¡Hola! ¿En qué puedo ayudarte?", Assistant, later)]
    ensures !busy
  {
    var screen := new ChatScreen("sk-test");
    screen.SetInputMessage("Hola");
    assert !IsBlank("Hola") by { assert !IsJsWhitespace("Hola"[0]); }
    assert DeriveTitle("Hola") == "Hola";
    ResolvedTargetIsCurrent([], None, now, "Hola");
    var pending := screen.Send(now, later, Success("¡Hola! ¿En qué puedo ayudarte?"));
    convs, busy := screen.conversations, screen.isLoading;
  }

  /** A fresh screen after one unanswered send of "uno". */
  method PendingFirstTurn(now: nat) returns (screen: ChatScreen)
    ensures fresh(screen)
    ensures screen.conversations == [Conversation(now, "uno", [UserMessage(now, "uno")], now)]
    ensures screen.currentConversationId == Some(now) && screen.apiKey == "sk-test"
  {
    screen := new ChatScreen("sk-test");
    screen.SetInputMessage("uno");
    assert !IsBlank("uno") by { assert !IsJsWhitespace("uno"[0]); }
    assert DeriveTitle("uno") == "uno";
    ResolvedTargetIsCurrent([], None, now, "uno");
    FreshSendShape([], None, now, "uno");
    var first, r1 := screen.BeginSend(now);
  }

  /** Two sends before the first reply: the second request already carries the
      first user turn, with no reply between them. */
  method OverlappingSends(now: nat) returns (second: PendingSend)
    ensures second.request == [Turn(User, "uno"), Turn(User, "dos")]
  {
    var screen := PendingFirstTurn(now);
    var c := screen.conversations[0];
    screen.SetInputMessage("dos");
    assert !IsBlank("dos") by { assert !IsJsWhitespace("dos"[0]); }
    FindHead(c, []);
    assert [c] + [] == [c];
    assert screen.CurrentConversation() == Some(c);
    var p, r2 := screen.BeginSend(now + 5);
    assert r2.target == c;
    assert Turns(c.messages) == [Turn(User, "uno")];
    second := p.value;
  }
}
