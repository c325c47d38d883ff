/** The legal-advisor chat widget (components/ChatWidget.tsx and its copy
    src/components/ChatWidget.tsx, whose logic is the same): an append-only
    message log, the input box, the typing flag and the open flag. The send
    handler is split at its `await`: `BeginSend` runs up to the model call and
    returns the request it makes, `FinishSend` runs with the model's reply.
    Effects are methods the host calls when their dependencies change;
    `Date.now()` is the parameter `now`. */
module Chat {
  import opened Common
  import opened Text
  import opened Types

  const GreetingText: string := "Hola, soy tu asesor legal con IA. ¿En qué puedo ayudarte hoy?"

  /** The one message the log starts with. */
  function Greeting(now: int): ChatMessage {
    ChatMessage("1", AiRole, GreetingText, now)
  }

  predicate IsGreeting(m: ChatMessage) {
    m.id == "1" && m.role == AiRole && m.text == GreetingText
  }

  /** `n.toString()` for a non-negative integer. */
  function NatToString(n: nat): (s: string)
    ensures |s| > 0
    ensures forall i :: 0 <= i < |s| ==> IsDigit(s[i])
  {
    if n < 10 then [('0' as int + n) as char]
    else NatToString(n / 10) + [('0' as int + n % 10) as char]
  }

  /** Rendering an id and parsing it back gives the number again. */
  lemma {:induction false} NatToStringRoundTrip(n: nat)
    ensures DecimalValue(NatToString(n)) == n
    ensures ParseInt(NatToString(n)) == Some(n)
  {
    var s := NatToString(n);
    if n >= 10 {
      NatToStringRoundTrip(n / 10);
      assert s[..|s| - 1] == NatToString(n / 10);
    } else {
      assert s[..|s| - 1] == [];
    }
    ParseIntDigits(s);
  }

  /** One entry of the history handed to the model: `{ role, parts: [{ text }] }`. */
  datatype Turn = Turn(role: string, text: string)

  function TurnOf(m: ChatMessage): Turn {
    Turn(if m.role == UserRole then "user" else "model", m.text)
  }

  /** `messages.map(m => ({ role: ..., parts: [{ text: m.text }] }))` */
  function History(messages: seq<ChatMessage>): seq<Turn> {
    if |messages| == 0 then [] else [TurnOf(messages[0])] + History(messages[1..])
  }

  /** The history has one turn per message, in order, carrying its text;
      the role is "user" exactly for user messages and "model" for all
      others. */
  lemma {:induction false} HistorySpec(messages: seq<ChatMessage>)
    ensures |History(messages)| == |messages|
    ensures forall i :: 0 <= i < |messages| ==>
      && History(messages)[i].text == messages[i].text
      && (History(messages)[i].role == "user" <==> messages[i].role == UserRole)
      && (History(messages)[i].role != "user" ==> History(messages)[i].role == "model")
  {
    if |messages| > 0 {
      HistorySpec(messages[1..]);
      forall i | 0 < i < |messages|
        ensures History(messages)[i] == History(messages[1..])[i - 1]
      {
      }
    }
  }

  /** The history of a longer log extends the history of the shorter one. */
  lemma {:induction false} HistoryAppend(a: seq<ChatMessage>, b: seq<ChatMessage>)
    ensures History(a + b) == History(a) + History(b)
  {
    if |a| > 0 {
      HistoryAppend(a[1..], b);
      assert (a + b)[1..] == a[1..] + b;
    } else {
      assert a + b == b;
    }
  }

  /** The notice appended when a law is selected while the widget is open. */
  function ContextNotice(title: string): string {
    "Veo que estás revisando: \"" + title + "\". ¿Tienes dudas específicas sobre esta normativa?"
  }

  /** The context handed to the model: present exactly when a law is
      selected. */
  function ContextString(law: Option<Law>): (r: Option<string>)
    ensures r.Some? <==> law.Some?
  {
    if law.Some? then
      Some("Norma: " + law.value.title + ". Resumen: " + law.value.description
           + ". Impacto: " + law.value.impactLevel.Label() + ".")
    else None
  }

  /** The context names the law's title, description and impact level, in
      that order, at fixed offsets. */
  lemma ContextStringNamesLaw(law: Law)
    ensures var c := ContextString(Some(law)).value;
      && c[..7] == "Norma: "
      && c[7..7 + |law.title|] == law.title
      && c[7 + |law.title| + 11..7 + |law.title| + 11 + |law.description|] == law.description
      && Includes(c, law.impactLevel.Label())
  {
    var c := ContextString(Some(law)).value;
    var k := 7 + |law.title| + 11 + |law.description| + 11;
    assert c[k..k + |law.impactLevel.Label()|] == law.impactLevel.Label();
    assert OccursAt(c, law.impactLevel.Label(), k);
    IncludesSpec(c, law.impactLevel.Label());
  }

  /** The notice names the selected law's title. */
  lemma ContextNoticeNamesTitle(title: string)
    ensures Includes(ContextNotice(title), title)
  {
    var n := ContextNotice(title);
    assert n[26..26 + |title|] == title;
    assert OccursAt(n, title, 26);
    IncludesSpec(n, title);
  }

  /** What `sendChatMessage` is called with. */
  datatype ChatRequest = ChatRequest(history: seq<Turn>, message: string, context: Option<string>)

  class ChatWidget {
    var isOpen: bool
    var messages: seq<ChatMessage>
    var input: string
    var isTyping: bool

    /** The log always starts with the greeting. */
    predicate StartsWithGreeting()
      reads this
    {
      |messages| > 0 && IsGreeting(messages[0])
    }

    constructor(now: int)
      ensures !isOpen && messages == [Greeting(now)] && input == "" && !isTyping
      ensures StartsWithGreeting()
    {
      isOpen := false;
      messages := [Greeting(now)];
      input := "";
      isTyping := false;
    }

    /** The send button is enabled only for a non-blank input while no
        reply is pending. */
    predicate SendEnabled()
      reads this
    {
      !IsBlank(input) && !isTyping
    }

    /** The `forceOpen` effect: opens, never closes. */
    method ForceOpenEffect(forceOpen: bool)
      modifies this
      ensures isOpen == (old(isOpen) || forceOpen)
      ensures messages == old(messages) && input == old(input) && isTyping == old(isTyping)
    {
      if forceOpen {
        isOpen := true;
      }
    }

    /** The context effect: with a law selected and the widget open, one
        `ai` notice naming the law's title is appended. */
    method ContextNoticeEffect(law: Option<Law>, now: nat)
      modifies this
      ensures law.Some? && old(isOpen) ==>
        messages == old(messages) + [ChatMessage(NatToString(now), AiRole, ContextNotice(law.value.title), now)]
      ensures !(law.Some? && old(isOpen)) ==> messages == old(messages)
      ensures isOpen == old(isOpen) && input == old(input) && isTyping == old(isTyping)
      ensures old(StartsWithGreeting()) ==> StartsWithGreeting()
    {
      if law.Some? && isOpen {
        messages := messages + [ChatMessage(NatToString(now), AiRole, ContextNotice(law.value.title), now)];
      }
    }

    /** The floating button. */
    method Toggle()
      modifies this
      ensures isOpen == !old(isOpen)
      ensures messages == old(messages) && input == old(input) && isTyping == old(isTyping)
    {
      isOpen := !isOpen;
    }

    /** The input box's `onChange`. */
    method SetInput(text: string)
      modifies this
      ensures input == text
      ensures isOpen == old(isOpen) && messages == old(messages) && isTyping == old(isTyping)
    {
      input := text;
    }

    /** `handleSend` up to the model call. A blank input changes nothing and
        makes no call; otherwise the untrimmed input is appended as a `user`
        message, the box is cleared, the typing flag is set, and the request
        carries the history of the log as it was before this send. */
    method BeginSend(law: Option<Law>, now: nat) returns (request: Option<ChatRequest>)
      modifies this
      ensures IsBlank(old(input)) ==>
        request == None && messages == old(messages) && input == old(input) && isTyping == old(isTyping)
      ensures !IsBlank(old(input)) ==>
        && messages == old(messages) + [ChatMessage(NatToString(now), UserRole, old(input), now)]
        && input == "" && isTyping
        && request == Some(ChatRequest(History(old(messages)), old(input), ContextString(law)))
      ensures isOpen == old(isOpen)
      ensures old(StartsWithGreeting()) ==> StartsWithGreeting()
    {
      if Trim(input) == "" {
        return None;
      }
      var userMsg := ChatMessage(NatToString(now), UserRole, input, now);
      var history := History(messages);
      messages := messages + [userMsg];
      input := "";
      isTyping := true;
      request := Some(ChatRequest(history, userMsg.text, ContextString(law)));
    }

    /** `handleSend` after the model answered `reply`: one `ai` message is
        appended and the typing flag is cleared. */
    method FinishSend(reply: string, now: nat)
      modifies this
      ensures messages == old(messages) + [ChatMessage(NatToString(now + 1), AiRole, reply, now)]
      ensures !isTyping
      ensures isOpen == old(isOpen) && input == old(input)
      ensures old(StartsWithGreeting()) ==> StartsWithGreeting()
    {
      messages := messages + [ChatMessage(NatToString(now + 1), AiRole, reply, now)];
      isTyping := false;
    }
  }

  /** A whole exchange seen from the log: after a non-blank send and its
      reply, the log is the old log plus exactly the user's message and the
      model's answer, and the history sent was that of the old log. */
  method SendExchange(w: ChatWidget, law: Option<Law>, now: nat, reply: string)
    returns (request: Option<ChatRequest>)
    requires !IsBlank(w.input)
    modifies w
    ensures |w.messages| == |old(w.messages)| + 2
    ensures w.messages[..|old(w.messages)|] == old(w.messages)
    ensures w.messages[|old(w.messages)|].role == UserRole && w.messages[|old(w.messages)|].text == old(w.input)
    ensures w.messages[|old(w.messages)| + 1].role == AiRole && w.messages[|old(w.messages)| + 1].text == reply
    ensures request.Some? && request.value.history == History(old(w.messages))
    ensures w.input == "" && !w.isTyping
  {
    request := w.BeginSend(law, now);
    w.FinishSend(reply, now);
  }
}
