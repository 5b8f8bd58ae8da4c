/** The data model shared by both chat front-ends: messages, conversations,
    the request payload, and the pure list updaters that the handlers pass to
    their state setters (filter by id, append-by-id, lookup by id),
    together with the input check and the title derivation of a send. */
module ChatModel {

  datatype Option<T> = None | Some(value: T)

  datatype Role = User | Assistant

  /** Identifiers and instants are clock readings (milliseconds), supplied by the caller. */
  datatype Message = Message(id: nat, content: string, role: Role, timestamp: nat)

  datatype Conversation = Conversation(id: nat, title: string, messages: seq<Message>, createdAt: nat)

  /** One `{role, content}` entry of the request sent to the completion endpoint. */
  datatype Turn = Turn(role: Role, content: string)

  /** What the completion request resolved to: the completion text, or any failure
      (non-ok status, transport error, malformed body). */
  datatype Outcome = Success(completion: string) | Failure

  /** What the first half of a send hands to the second: the id of the target
      conversation and the message history of the request. */
  datatype PendingSend = PendingSend(target: nat, request: seq<Turn>)

  /** The outcome of target resolution: the target as captured, the list after
      any insertion, and the selection after it. */
  datatype Resolved = Resolved(target: Conversation, conversations: seq<Conversation>, selected: Option<nat>)

  const PlaceholderTitle: string := "Nueva conversación"
  const Apology: string := "Lo siento, hubo un error al procesar tu mensaje. Verifica tu API key y conexión."
  const TitleLength: nat := 50
  const Ellipsis: string := "..."

  // ---------------------------------------------------------------------------
  // String.prototype.trim and the input check

  /** The code points that JavaScript's `trim` strips: the WhiteSpace code points
      (tab, vertical tab, form feed, space, no-break space, byte order mark and the
      space separators U+1680, U+2000..U+200A, U+202F, U+205F, U+3000) and the
      LineTerminator code points (line feed, carriage return, U+2028, U+2029). */
  const JsWhitespace: set<char> := {
    '\t', '\n', '\U{000B}', '\U{000C}', '\r', ' ', '\U{00A0}', '\U{1680}',
    '\U{2000}', '\U{2001}', '\U{2002}', '\U{2003}', '\U{2004}', '\U{2005}',
    '\U{2006}', '\U{2007}', '\U{2008}', '\U{2009}', '\U{200A}',
    '\U{2028}', '\U{2029}', '\U{202F}', '\U{205F}', '\U{3000}', '\U{FEFF}'}

  predicate IsJsWhitespace(c: char)
  {
    c in JsWhitespace
  }

  /** Every character of `s` is whitespace (vacuously so for the empty string). */
  predicate IsBlank(s: string)
  {
    forall i :: 0 <= i < |s| ==> IsJsWhitespace(s[i])
  }

  /** Drops the longest whitespace prefix: what remains is a suffix of `s` that does
      not start with whitespace, and everything dropped is whitespace. */
  function TrimStart(s: string): (r: string)
    ensures |r| <= |s| && r == s[|s| - |r|..]
    ensures IsBlank(s[..|s| - |r|])
    ensures r != [] ==> !IsJsWhitespace(r[0])
  {
    if s != [] && IsJsWhitespace(s[0]) then
      var r := TrimStart(s[1..]);
      assert forall i :: 1 <= i < |s| - |r| ==> s[i] == s[1..][i - 1];
      r
    else s
  }

  /** Drops the longest whitespace suffix: what remains is a prefix of `s` that does
      not end with whitespace, and everything dropped is whitespace. */
  function TrimEnd(s: string): (r: string)
    ensures |r| <= |s| && r == s[..|r|]
    ensures IsBlank(s[|r|..])
    ensures r != [] ==> !IsJsWhitespace(r[|r| - 1])
  {
    if s != [] && IsJsWhitespace(s[|s| - 1]) then
      var r := TrimEnd(s[..|s| - 1]);
      assert forall i :: |r| <= i < |s| - 1 ==> s[i] == s[..|s| - 1][i];
      r
    else s
  }

  /** `s.trim()`: strips leading and trailing whitespace. The result is empty
      exactly when every character of `s` is whitespace (in particular for the
      empty string), so `!s.trim()` is the blank test; a non-empty result neither
      starts nor ends with whitespace. */
  function Trim(s: string): (r: string)
    ensures r == [] <==> IsBlank(s)
    ensures r != [] ==> !IsJsWhitespace(r[0]) && !IsJsWhitespace(r[|r| - 1])
  {
    TrimEnd(TrimStart(s))
  }

  /** The guard at the top of `sendMessage`, negated: the trimmed input and the key
      are both non-empty,
      stated with IsBlank, which the contract of Trim shows equivalent to an empty trim. */
  predicate Accepts(input: string, apiKey: string)
  {
    !IsBlank(input) && apiKey != []
  }

  /** The `disabled` expression of the send button. */
  predicate SendDisabled(input: string, isLoading: bool, apiKey: string)
  {
    IsBlank(input) || isLoading || apiKey == []
  }

  /** The handler's guard is the source's `trim` test, and the busy flag gates only
      the button: an enabled button means the handler accepts, but the handler also
      accepts while a reply is outstanding. */
  lemma GuardIsTrimTest(input: string, apiKey: string)
    ensures Accepts(input, apiKey) <==> Trim(input) != [] && apiKey != []
    ensures !SendDisabled(input, false, apiKey) <==> Trim(input) != [] && apiKey != []
    ensures SendDisabled(input, true, apiKey)
  {
  }

  // ---------------------------------------------------------------------------
  // Title derivation

  /** The title of a conversation created by a send: the first 50 characters of
      the input, followed by an ellipsis when the input is longer. */
  function DeriveTitle(input: string): (t: string)
    ensures |input| <= TitleLength ==> t == input
    ensures |input| > TitleLength ==> t == input[..TitleLength] + Ellipsis && |t| == TitleLength + |Ellipsis|
    ensures |t| <= TitleLength + |Ellipsis|
  {
    if |input| > TitleLength then input[..TitleLength] + Ellipsis else input
  }

  // ---------------------------------------------------------------------------
  // Lookup of the current conversation: the first conversation with the selected id

  /** No conversation before index `k` has the selected id. */
  ghost predicate NoMatchBefore(cs: seq<Conversation>, sel: Option<nat>, k: int)
    requires k <= |cs|
  {
    forall j :: 0 <= j < k ==> Some(cs[j].id) != sel
  }

  function Find(cs: seq<Conversation>, sel: Option<nat>): (r: Option<Conversation>)
    ensures r.None? <==> NoMatchBefore(cs, sel, |cs|)
    ensures r.Some? ==> exists k :: 0 <= k < |cs| && cs[k] == r.value && Some(cs[k].id) == sel && NoMatchBefore(cs, sel, k)
  {
    if cs == [] then None
    else if Some(cs[0].id) == sel then
      assert NoMatchBefore(cs, sel, 0);
      Some(cs[0])
    else
      var r := Find(cs[1..], sel);
      assert forall k :: 0 <= k < |cs| - 1 ==> NoMatchBefore(cs[1..], sel, k) ==> NoMatchBefore(cs, sel, k + 1);
      r
  }

  /** A selection never dangles: when an id is selected, the lookup finds it. */
  ghost predicate SelectionValid(cs: seq<Conversation>, sel: Option<nat>)
  {
    sel.Some? ==> Find(cs, sel).Some?
  }

  lemma FindHead(c: Conversation, cs: seq<Conversation>)
    ensures Find([c] + cs, Some(c.id)) == Some(c)
  {
  }

  // ---------------------------------------------------------------------------
  // Deletion: keep the conversations whose id differs

  function Without(cs: seq<Conversation>, id: nat): (r: seq<Conversation>)
    ensures |r| <= |cs|
    ensures |r| == |cs| <==> forall i :: 0 <= i < |cs| ==> cs[i].id != id
    ensures forall i :: 0 <= i < |r| ==> r[i].id != id
    ensures forall c :: c in r <==> c in cs && c.id != id
  {
    if cs == [] then []
    else if cs[0].id == id then Without(cs[1..], id)
    else [cs[0]] + Without(cs[1..], id)
  }

  /** Filtering keeps the survivors in their original order: it distributes over concatenation. */
  lemma {:induction false} WithoutConcat(a: seq<Conversation>, b: seq<Conversation>, id: nat)
    ensures Without(a + b, id) == Without(a, id) + Without(b, id)
  {
    if a != [] {
      assert (a + b)[1..] == a[1..] + b;
      WithoutConcat(a[1..], b, id);
    } else {
      assert a + b == b;
    }
  }

  /** Deleting an id that no conversation has leaves the list as it was. */
  lemma {:induction false} WithoutAbsent(cs: seq<Conversation>, id: nat)
    requires forall i :: 0 <= i < |cs| ==> cs[i].id != id
    ensures Without(cs, id) == cs
  {
    if cs != [] {
      WithoutAbsent(cs[1..], id);
    }
  }

  /** Deleting a conversation other than the selected one leaves the current view unchanged. */
  lemma {:induction false} FindAfterWithout(cs: seq<Conversation>, id: nat, sel: Option<nat>)
    requires sel != Some(id)
    ensures Find(Without(cs, id), sel) == Find(cs, sel)
  {
    if cs != [] {
      FindAfterWithout(cs[1..], id, sel);
    }
  }

  // ---------------------------------------------------------------------------
  // Append by id: every conversation with the id gets the message at its end

  function AppendIfMatch(c: Conversation, id: nat, m: Message): Conversation
  {
    if c.id == id then c.(messages := c.messages + [m]) else c
  }

  function AppendWhere(cs: seq<Conversation>, id: nat, m: Message): (r: seq<Conversation>)
    ensures |r| == |cs|
    ensures forall i :: 0 <= i < |cs| ==>
      r[i].id == cs[i].id && r[i].title == cs[i].title && r[i].createdAt == cs[i].createdAt
    ensures forall i :: 0 <= i < |cs| && cs[i].id != id ==> r[i] == cs[i]
    ensures forall i :: 0 <= i < |cs| && cs[i].id == id ==> r[i].messages == cs[i].messages + [m]
  {
    if cs == [] then [] else [AppendIfMatch(cs[0], id, m)] + AppendWhere(cs[1..], id, m)
  }

  /** When the target id has vanished the append is a no-op. */
  lemma AppendWhereAbsent(cs: seq<Conversation>, id: nat, m: Message)
    requires forall i :: 0 <= i < |cs| ==> cs[i].id != id
    ensures AppendWhere(cs, id, m) == cs
  {
    var r := AppendWhere(cs, id, m);
    assert forall i :: 0 <= i < |cs| ==> r[i] == cs[i];
  }

  /** The lookup sees the append: the conversation it finds afterwards is the one it
      found before, with the message appended when it is the target. */
  lemma {:induction false} FindAfterAppend(cs: seq<Conversation>, id: nat, m: Message, sel: Option<nat>)
    ensures Find(AppendWhere(cs, id, m), sel) ==
      match Find(cs, sel)
      case None => None
      case Some(c) => Some(AppendIfMatch(c, id, m))
  {
    if cs != [] {
      var r := AppendWhere(cs, id, m);
      assert r[1..] == AppendWhere(cs[1..], id, m);
      FindAfterAppend(cs[1..], id, m, sel);
    }
  }

  /** Appending to the conversation the lookup finds: the lookup then finds it with
      the message at its end, so the selection stays valid. */
  lemma FindTargetAfterAppend(cs: seq<Conversation>, sel: Option<nat>, c: Conversation, m: Message)
    requires Find(cs, sel) == Some(c)
    ensures Find(AppendWhere(cs, c.id, m), sel) == Some(c.(messages := c.messages + [m]))
    ensures SelectionValid(AppendWhere(cs, c.id, m), sel)
  {
    FindAfterAppend(cs, c.id, m, sel);
  }

  /** Appending never changes which selections are valid. */
  lemma SelectionValidAfterAppend(cs: seq<Conversation>, id: nat, m: Message, sel: Option<nat>)
    ensures SelectionValid(AppendWhere(cs, id, m), sel) <==> SelectionValid(cs, sel)
  {
    FindAfterAppend(cs, id, m, sel);
  }

  /** A user turn and its reply appended to the same id leave every matching
      conversation balanced and every other conversation untouched. */
  lemma AppendPair(cs: seq<Conversation>, id: nat, u: Message, a: Message)
    ensures |AppendWhere(AppendWhere(cs, id, u), id, a)| == |cs|
    ensures forall i :: 0 <= i < |cs| && cs[i].id == id ==>
      AppendWhere(AppendWhere(cs, id, u), id, a)[i].messages == cs[i].messages + [u, a]
    ensures forall i :: 0 <= i < |cs| && cs[i].id != id ==>
      AppendWhere(AppendWhere(cs, id, u), id, a)[i] == cs[i]
  {
    var mid := AppendWhere(cs, id, u);
    var r := AppendWhere(mid, id, a);
    forall i | 0 <= i < |cs| && cs[i].id == id
      ensures r[i].messages == cs[i].messages + [u, a]
    {
      assert mid[i].id == id;
    }
  }

  // ---------------------------------------------------------------------------
  // The request history

  /** Each message reduced to its role and content, in order. */
  function Turns(msgs: seq<Message>): (r: seq<Turn>)
    ensures |r| == |msgs|
    ensures forall i :: 0 <= i < |msgs| ==> r[i].role == msgs[i].role && r[i].content == msgs[i].content
  {
    if msgs == [] then [] else [Turn(msgs[0].role, msgs[0].content)] + Turns(msgs[1..])
  }

  /** The prior turns of the captured target, then the new user turn. */
  function History(snapshot: seq<Message>, input: string): (r: seq<Turn>)
    ensures |r| == |snapshot| + 1
    ensures r[|snapshot|] == Turn(User, input)
    ensures forall i :: 0 <= i < |snapshot| ==> r[i] == Turn(snapshot[i].role, snapshot[i].content)
  {
    Turns(snapshot) + [Turn(User, input)]
  }

  /** Replaying the optimistic append: the request is exactly the turns of the
      captured conversation once the user message is appended to it. */
  lemma {:induction false} HistoryIsAppendedTurns(snapshot: seq<Message>, input: string, now: nat)
    ensures History(snapshot, input) == Turns(snapshot + [UserMessage(now, input)])
  {
    TurnsConcat(snapshot, [UserMessage(now, input)]);
  }

  lemma {:induction false} TurnsConcat(a: seq<Message>, b: seq<Message>)
    ensures Turns(a + b) == Turns(a) + Turns(b)
  {
    if a != [] {
      assert (a + b)[1..] == a[1..] + b;
      TurnsConcat(a[1..], b);
    }
  }

  // ---------------------------------------------------------------------------
  // The messages a send creates

  /** `userMessage`: the untrimmed input as a user turn, stamped with the clock
      reading; in the request it is the user turn for that input. */
  function UserMessage(now: nat, input: string): (m: Message)
    ensures m.role == User && m.content == input
    ensures Turns([m]) == [Turn(User, input)]
  {
    Message(now, input, User, now)
  }

  /** `assistantMessage` on success, `errorMessage` on failure; the id is one past the clock. */
  function ReplyMessage(now: nat, outcome: Outcome): (m: Message)
    ensures m.role == Assistant && m.id == now + 1
    ensures outcome.Success? ==> m.content == outcome.completion
    ensures outcome.Failure? ==> m.content == Apology
  {
    match outcome
    case Success(text) => Message(now + 1, text, Assistant, now)
    case Failure => Message(now + 1, Apology, Assistant, now)
  }
}
