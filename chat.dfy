/**
 * The chat page: the list of chat sessions (create, load, delete, retitle) and the guards and
 * context window around sending a message. Every handler is one sequential step over the page
 * state; the AI answer and the usage check arrive as oracle parameters.
 */
module Chat {
  import opened Wrappers
  import opened Text
  import Auth
  import AIHook

  const NewChatTitle := "New Chat"
  const ConsultationTitle := "Legal Consultation"
  const WelcomeId := "1"
  const TitleLength := 50
  const ContextSize := 10
  const ApologyText := "I apologize, but I encountered an error processing your request. Please try again or contact support if the issue persists."

  datatype Role = UserRole | AssistantRole

  /** One chat message; timestamps are milliseconds since the epoch. */
  datatype Message = Message(id: string, role: Role, content: string, timestamp: int,
                             audioUrl: Option<string>, videoUrl: Option<string>)

  datatype Session = Session(id: string, title: string, messages: seq<Message>, timestamp: int)

  /** The plan shown in the welcome text: the subscription's tier, else the account's plan, else `Free`. */
  function PlanLabel(tierId: string, plan: string): (r: string)
    ensures r != ""
    ensures tierId != "" ==> r == tierId
  {
    OrElse(OrElse(tierId, plan), "Free")
  }

  /** The welcome text of a new chat, filled in with the user's details. */
  function WelcomeText(name: string, planLabel: string, jurisdiction: string, languageName: string,
                       configured: bool): string
  {
    "Hello " + name + "! I'm your AI legal assistant. I can help you with legal questions, document analysis, and provide guidance based on your jurisdiction.\n\n"
    + "**Current Plan:** " + planLabel + "\n"
    + "**Jurisdiction:** " + jurisdiction + "\n"
    + "**Language:** " + languageName + "\n"
    + "**AI Service:** " + (if configured then "Gemini AI ✅" else "Not Configured ❌") + "\n\n"
    + "How can I assist you today?\n\n"
    + "*Please note: I provide general legal information and should not be considered as legal advice. For specific legal matters, please consult with a qualified attorney.*"
  }

  /** The session a new chat starts: one assistant welcome message, already retitled. */
  function NewSession(now: nat, welcome: string): (s: Session)
    ensures s.id == NatToString(now) && s.title == ConsultationTitle
    ensures |s.messages| == 1 && s.messages[0].id == WelcomeId && s.messages[0].role == AssistantRole
    ensures s.messages[0].content == welcome
  {
    Session(NatToString(now), ConsultationTitle,
            [Message(WelcomeId, AssistantRole, welcome, now, None, None)], now)
  }

  predicate HasId(sessions: seq<Session>, id: string) {
    exists i | 0 <= i < |sessions| :: sessions[i].id == id
  }

  /** The sessions without those whose id is `id` (`filter(s => s.id !== id)`). */
  function WithoutSession(sessions: seq<Session>, id: string): (r: seq<Session>)
    ensures |r| <= |sessions|
    ensures forall s :: s in r <==> s in sessions && s.id != id
  {
    if sessions == [] then []
    else if sessions[0].id == id then WithoutSession(sessions[1..], id)
    else [sessions[0]] + WithoutSession(sessions[1..], id)
  }

  /** The title a session gets from its messages: the start of the second one, or a placeholder. */
  function SessionTitle(messages: seq<Message>): (t: string)
    ensures |t| <= TitleLength + 3
    ensures |messages| > 1 ==> t == Take(messages[1].content, TitleLength) + "..."
                                && StartsWith(messages[1].content, t[..|t| - 3])
    ensures |messages| <= 1 ==> t == NewChatTitle
  {
    if |messages| > 1 then Take(messages[1].content, TitleLength) + "..." else NewChatTitle
  }

  /** The sessions after `updateCurrentSession`: the one whose id is `id` gets the messages. */
  function Retitled(sessions: seq<Session>, id: string, messages: seq<Message>, now: int): (r: seq<Session>)
    ensures |r| == |sessions|
    ensures forall i | 0 <= i < |r| :: r[i].id == sessions[i].id
    ensures forall i | 0 <= i < |r| && sessions[i].id != id :: r[i] == sessions[i]
    ensures forall i | 0 <= i < |r| && sessions[i].id == id ::
              r[i].messages == messages && r[i].title == SessionTitle(messages) && r[i].timestamp == now
  {
    seq(|sessions|, i requires 0 <= i < |sessions| =>
      if sessions[i].id == id
      then sessions[i].(messages := messages, title := SessionTitle(messages), timestamp := now)
      else sessions[i])
  }

  /** `messages.slice(-10)`: the most recent messages, at most ten of them. */
  function ContextWindow(messages: seq<Message>): (r: seq<Message>)
    ensures |r| == if |messages| < ContextSize then |messages| else ContextSize
    ensures r == messages[|messages| - |r|..]
  {
    if |messages| <= ContextSize then messages else messages[|messages| - ContextSize..]
  }

  /** The first session with the given id (`find`). */
  function FindSession(sessions: seq<Session>, id: string): (r: Option<Session>)
    ensures r.None? <==> !HasId(sessions, id)
    ensures r.Some? ==> r.value in sessions && r.value.id == id
  {
    Find(sessions, (s: Session) => s.id == id)
  }

  /** The assistant's side of an exchange: the answer, or the fixed apology when the call threw. */
  function ReplyMessage(now: nat, reply: Result<AIHook.AIResponse, string>): (m: Message)
    ensures m.role == AssistantRole && m.id == NatToString(now + 1)
    ensures reply.Success? ==> m.content == reply.value.text && m.audioUrl == reply.value.audioUrl
                               && m.videoUrl == reply.value.videoUrl
    ensures reply.Failure? ==> m.content == ApologyText && m.audioUrl == None && m.videoUrl == None
  {
    match reply
    case Success(r) => Message(NatToString(now + 1), AssistantRole, r.text, now, r.audioUrl, r.videoUrl)
    case Failure(_) => Message(NatToString(now + 1), AssistantRole, ApologyText, now, None, None)
  }

  /** Deleting a session that was never there changes nothing. */
  lemma {:induction false} WithoutAbsent(sessions: seq<Session>, id: string)
    requires !HasId(sessions, id)
    ensures WithoutSession(sessions, id) == sessions
  {
    if sessions != [] {
      assert !HasId(sessions[1..], id) by {
        forall i | 0 <= i < |sessions[1..]| ensures sessions[1..][i].id != id {
          assert sessions[1..][i] == sessions[i + 1];
        }
      }
      WithoutAbsent(sessions[1..], id);
    }
  }

  /** Deleting keeps the relative order of the other sessions and leaves none with that id. */
  lemma {:induction false} WithoutSessionLeavesNone(sessions: seq<Session>, id: string)
    ensures !HasId(WithoutSession(sessions, id), id)
    ensures WithoutSession(WithoutSession(sessions, id), id) == WithoutSession(sessions, id)
  {
    var r := WithoutSession(sessions, id);
    assert !HasId(r, id) by {
      forall i | 0 <= i < |r| ensures r[i].id != id {
        assert r[i] in r;
      }
    }
    WithoutAbsent(r, id);
  }

  /** Creating a chat and deleting it again gives back the previous list. */
  lemma DeleteCreated(sessions: seq<Session>, now: nat, welcome: string)
    requires !HasId(sessions, NatToString(now))
    ensures WithoutSession([NewSession(now, welcome)] + sessions, NatToString(now)) == sessions
  {
    var l := [NewSession(now, welcome)] + sessions;
    assert l[1..] == sessions;
    WithoutAbsent(sessions, NatToString(now));
  }

  /** Once a session has two messages its title no longer changes as the conversation grows. */
  lemma TitleStable(messages: seq<Message>, more: seq<Message>)
    requires |messages| > 1
    ensures SessionTitle(messages + more) == SessionTitle(messages)
  {
    assert (messages + more)[1] == messages[1];
  }

  /** Retitling twice is retitling once with the later messages. */
  lemma RetitleTwice(sessions: seq<Session>, id: string, m1: seq<Message>, t1: int, m2: seq<Message>, t2: int)
    ensures Retitled(Retitled(sessions, id, m1, t1), id, m2, t2) == Retitled(sessions, id, m2, t2)
  {
  }

  /** Once the window is full, each new message pushes the oldest one out. */
  lemma ContextOfSend(messages: seq<Message>, m: Message)
    ensures |messages| >= ContextSize ==> ContextWindow(messages + [m]) == ContextWindow(messages)[1..] + [m]
  {
    if |messages| >= ContextSize {
      var l := messages + [m];
      assert l[|l| - ContextSize..] == messages[|messages| - ContextSize + 1..] + [m];
    }
  }

  /**
   * Opening the chat page signed in, whatever the browser had saved: the start-up effect leaves
   * exactly one fresh chat in the list and in storage, so earlier chats are overwritten.
   */
  method OpenChatPage(saved: Option<seq<Session>>, user: Option<Auth.User>, now: nat, welcome: string)
    returns (sessions: seq<Session>, stored: Option<seq<Session>>)
    ensures user.Some? ==> sessions == [NewSession(now, welcome)] && stored == Some(sessions)
    ensures user.Some? && saved.Some? && |saved.value| >= 2 ==> stored != saved
    ensures user.None? ==> sessions == [] && stored == saved
  {
    var page := new ChatPage(saved);
    page.Mount(user, now, welcome);
    sessions, stored := page.sessions, page.stored;
  }

  /** Opening the chat page with the sessions loaded before the first chat is created. */
  method OpenChatPageCorrected(saved: Option<seq<Session>>, user: Option<Auth.User>, now: nat, welcome: string)
    returns (sessions: seq<Session>, stored: Option<seq<Session>>)
    ensures user.Some? && saved.Some? && saved.value != [] ==> sessions == saved.value && stored == saved
    ensures user.Some? && (saved.None? || saved.value == []) ==>
              sessions == [NewSession(now, welcome)] && stored == Some(sessions)
    ensures user.None? ==> sessions == [] && stored == saved
  {
    var page := new ChatPage(saved);
    page.MountCorrected(user, now, welcome);
    sessions, stored := page.sessions, page.stored;
  }

  /**
   * Deleting the only chat, while it is open: the new chat comes with the deleted one behind it,
   * and both are saved.
   */
  method DeleteOnlyChat(s: Session, now: nat, welcome: string) returns (after: seq<Session>, kept: Option<seq<Session>>)
    ensures after == [NewSession(now, welcome), s] && kept == Some(after)
    ensures HasId(after, s.id)
  {
    var page := new ChatPage(Some([s]));
    page.LoadChatSessions();
    page.LoadChatSession(s.id);
    page.DeleteChatSession(s.id, now, welcome);
    after, kept := page.sessions, page.stored;
    assert after[1] == s;
  }

  /** Deleting the only chat with the corrected handler: only the new chat is left and saved. */
  method DeleteOnlyChatCorrected(s: Session, now: nat, welcome: string) returns (after: seq<Session>, kept: Option<seq<Session>>)
    ensures after == [NewSession(now, welcome)] && kept == Some(after)
    ensures s.id != NatToString(now) ==> !HasId(after, s.id)
  {
    var page := new ChatPage(Some([s]));
    page.LoadChatSessions();
    page.LoadChatSession(s.id);
    page.DeleteChatSessionCorrected(s.id, now, welcome);
    after, kept := page.sessions, page.stored;
  }

  /** The chat page state. */
  class ChatPage {
    var messages: seq<Message>
    var inputMessage: string
    var isTyping: bool
    var sessions: seq<Session>
    /** `null` is `None`; the empty string, as in JavaScript, also means no session is current. */
    var currentSessionId: Option<string>
    /** The browser's `chat_sessions_<user id>` entry for the signed-in user. */
    var stored: Option<seq<Session>>

    /** A page as React first renders it: no sessions in state, whatever the browser kept. */
    constructor(saved: Option<seq<Session>>)
      ensures sessions == [] && stored == saved && messages == [] && inputMessage == ""
      ensures !isTyping && currentSessionId == None
    {
      sessions := [];
      stored := saved;
      messages := [];
      inputMessage := "";
      isTyping := false;
      currentSessionId := None;
    }

    predicate HasCurrent()
      reads this
    {
      currentSessionId.Some? && currentSessionId.value != ""
    }

    /** `loadChatSessions`: the saved sessions, when there are any, replace the list. */
    method LoadChatSessions()
      modifies this
      ensures sessions == if old(stored).Some? then old(stored).value else old(sessions)
      ensures stored == old(stored) && currentSessionId == old(currentSessionId) && messages == old(messages)
      ensures inputMessage == old(inputMessage) && isTyping == old(isTyping)
    {
      if stored.Some? {
        sessions := stored.value;
      }
    }

    /**
     * The body of `createNewChat`, run with `rendered` as the `chatSessions` of the render it
     * was called from: the welcome session goes in front of that list, which is saved.
     */
    method StartChatFrom(rendered: seq<Session>, now: nat, welcome: string)
      modifies this
      ensures sessions == [NewSession(now, welcome)] + rendered && stored == Some(sessions)
      ensures currentSessionId == Some(NatToString(now))
      ensures messages == NewSession(now, welcome).messages
      ensures inputMessage == old(inputMessage) && isTyping == old(isTyping)
    {
      var session := Session(NatToString(now), NewChatTitle, [], now);
      sessions := [session] + rendered;
      stored := Some(sessions);
      currentSessionId := Some(session.id);
      messages := [];
      var welcomeMessage := Message(WelcomeId, AssistantRole, welcome, now, None, None);
      messages := [welcomeMessage];
      session := session.(messages := [welcomeMessage], title := ConsultationTitle);
      sessions := [session] + rendered;
      stored := Some(sessions);
    }

    /** `createNewChat` from a render showing the current list. */
    method CreateNewChat(now: nat, welcome: string)
      modifies this
      ensures sessions == [NewSession(now, welcome)] + old(sessions) && stored == Some(sessions)
      ensures currentSessionId == Some(NatToString(now))
      ensures messages == NewSession(now, welcome).messages
      ensures inputMessage == old(inputMessage) && isTyping == old(isTyping)
    {
      StartChatFrom(sessions, now, welcome);
    }

    /** `initializeChat`: a first chat when there is a user and no session in state yet. */
    method InitializeChat(user: Option<Auth.User>, now: nat, welcome: string)
      modifies this
      ensures user.None? || old(sessions) != [] ==> sessions == old(sessions) && messages == old(messages)
                                                    && currentSessionId == old(currentSessionId)
                                                    && stored == old(stored)
      ensures user.Some? && old(sessions) == [] ==> sessions == [NewSession(now, welcome)]
                                                    && stored == Some(sessions)
                                                    && currentSessionId == Some(NatToString(now))
                                                    && messages == NewSession(now, welcome).messages
      ensures inputMessage == old(inputMessage) && isTyping == old(isTyping)
    {
      if user.Some? && sessions == [] {
        CreateNewChat(now, welcome);
      }
    }

    /**
     * The start-up effect: with a user, `initializeChat()` and then `loadChatSessions()`, in
     * that order. Location detection, the third step, only sets the jurisdiction shown.
     */
    method Mount(user: Option<Auth.User>, now: nat, welcome: string)
      modifies this
      ensures user.None? ==> sessions == old(sessions) && stored == old(stored)
                             && currentSessionId == old(currentSessionId) && messages == old(messages)
      ensures user.Some? ==>
                var created := old(sessions) == [];
                && stored == (if created then Some([NewSession(now, welcome)]) else old(stored))
                && sessions == (if stored.Some? then stored.value else old(sessions))
                && (created ==> currentSessionId == Some(NatToString(now))
                                && messages == NewSession(now, welcome).messages)
                && (!created ==> currentSessionId == old(currentSessionId) && messages == old(messages))
      ensures inputMessage == old(inputMessage) && isTyping == old(isTyping)
    {
      if user.Some? {
        InitializeChat(user, now, welcome);
        LoadChatSessions();
      }
    }

    /** The start-up effect with the saved sessions loaded first, so a chat is only created when none were saved. */
    method MountCorrected(user: Option<Auth.User>, now: nat, welcome: string)
      modifies this
      ensures user.None? ==> sessions == old(sessions) && stored == old(stored)
                             && currentSessionId == old(currentSessionId) && messages == old(messages)
      ensures user.Some? ==>
                var loaded := if old(stored).Some? then old(stored).value else old(sessions);
                && (loaded != [] ==> sessions == loaded && stored == old(stored)
                                     && currentSessionId == old(currentSessionId) && messages == old(messages))
                && (loaded == [] ==> sessions == [NewSession(now, welcome)] && stored == Some(sessions)
                                     && currentSessionId == Some(NatToString(now))
                                     && messages == NewSession(now, welcome).messages)
      ensures inputMessage == old(inputMessage) && isTyping == old(isTyping)
    {
      if user.Some? {
        LoadChatSessions();
        InitializeChat(user, now, welcome);
      }
    }

    /** `loadChatSession`: select a session that exists; an unknown id changes nothing. */
    method LoadChatSession(id: string)
      modifies this
      ensures HasId(old(sessions), id) ==>
                currentSessionId == Some(id) && messages == FindSession(old(sessions), id).value.messages
      ensures !HasId(old(sessions), id) ==> currentSessionId == old(currentSessionId) && messages == old(messages)
      ensures sessions == old(sessions) && stored == old(stored)
      ensures inputMessage == old(inputMessage) && isTyping == old(isTyping)
    {
      var session := FindSession(sessions, id);
      if session.Some? {
        currentSessionId := Some(id);
        messages := session.value.messages;
      }
    }

    /**
     * `deleteChatSession`: the sessions with that id go and the rest is saved; when the current
     * one went, the first remaining session is selected. When none remain, `createNewChat` runs
     * with the list of the render the click came from, which still holds the deleted sessions,
     * so they come back behind the new chat and are saved again.
     */
    method DeleteChatSession(id: string, now: nat, welcome: string)
      modifies this
      ensures var rest := WithoutSession(old(sessions), id);
              && (old(currentSessionId) != Some(id) ==> sessions == rest && currentSessionId == old(currentSessionId)
                                                        && messages == old(messages))
              && (old(currentSessionId) == Some(id) && rest != [] ==>
                    sessions == rest && currentSessionId == Some(rest[0].id) && messages == rest[0].messages)
              && (old(currentSessionId) == Some(id) && rest == [] ==>
                    sessions == [NewSession(now, welcome)] + old(sessions) && currentSessionId == Some(NatToString(now))
                    && messages == NewSession(now, welcome).messages)
              && (old(currentSessionId) != Some(id) || rest != [] ==> !HasId(sessions, id))
      ensures stored == Some(sessions)
      ensures inputMessage == old(inputMessage) && isTyping == old(isTyping)
    {
      var rendered := sessions;
      sessions := WithoutSession(sessions, id);
      stored := Some(sessions);
      WithoutSessionLeavesNone(old(sessions), id);
      if currentSessionId == Some(id) {
        if |sessions| > 0 {
          LoadChatSession(sessions[0].id);
        } else {
          StartChatFrom(rendered, now, welcome);
        }
      }
    }

    /** `deleteChatSession` with the new chat built from the remaining sessions, so a deleted chat stays deleted. */
    method DeleteChatSessionCorrected(id: string, now: nat, welcome: string)
      modifies this
      ensures var rest := WithoutSession(old(sessions), id);
              && (old(currentSessionId) != Some(id) ==> sessions == rest && currentSessionId == old(currentSessionId)
                                                        && messages == old(messages))
              && (old(currentSessionId) == Some(id) && rest != [] ==>
                    sessions == rest && currentSessionId == Some(rest[0].id) && messages == rest[0].messages)
              && (old(currentSessionId) == Some(id) && rest == [] ==>
                    sessions == [NewSession(now, welcome)] && currentSessionId == Some(NatToString(now))
                    && messages == NewSession(now, welcome).messages)
      ensures !HasId(sessions, id) || (old(currentSessionId) == Some(id) && id == NatToString(now))
      ensures stored == Some(sessions)
      ensures inputMessage == old(inputMessage) && isTyping == old(isTyping)
    {
      sessions := WithoutSession(sessions, id);
      stored := Some(sessions);
      WithoutSessionLeavesNone(old(sessions), id);
      if currentSessionId == Some(id) {
        if |sessions| > 0 {
          LoadChatSession(sessions[0].id);
        } else {
          StartChatFrom(sessions, now, welcome);
        }
      }
    }

    /** `updateCurrentSession`: the current session takes the messages and a title from them. */
    method UpdateCurrentSession(newMessages: seq<Message>, now: int)
      modifies this
      ensures old(HasCurrent()) ==> sessions == Retitled(old(sessions), old(currentSessionId).value, newMessages, now)
      ensures !old(HasCurrent()) ==> sessions == old(sessions)
      ensures stored == if old(HasCurrent()) then Some(sessions) else old(stored)
      ensures currentSessionId == old(currentSessionId) && messages == old(messages)
      ensures inputMessage == old(inputMessage) && isTyping == old(isTyping)
    {
      if !HasCurrent() {
        return;
      }
      var id := currentSessionId.value;
      var updated: seq<Session> := [];
      var i := 0;
      while i < |sessions|
        invariant 0 <= i <= |sessions|
        invariant updated == Retitled(sessions[..i], id, newMessages, now)
      {
        var s := sessions[i];
        if s.id == id {
          s := s.(messages := newMessages, title := SessionTitle(newMessages), timestamp := now);
        }
        updated := updated + [s];
        i := i + 1;
      }
      assert sessions[..i] == sessions;
      sessions := updated;
      stored := Some(updated);
    }

    /**
     * `handleSendMessage`: blank input, a missing user, an unconfigured AI service, or a free
     * account over its consultation limit (`canUseAI`, the answer of the usage check) leave the
     * page as it was and send nothing. Otherwise the last ten earlier messages are the context,
     * and the user's message and the answer (or an apology) are appended and stored in the
     * current session.
     */
    method HandleSendMessage(user: Option<Auth.User>, configured: bool, canUseAI: bool,
                             reply: Result<AIHook.AIResponse, string>, now: nat)
      returns (context: Option<seq<Message>>)
      modifies this
      ensures var ignored := Trim(old(inputMessage)) == "" || user.None? || !configured
                             || (AIHook.Gated(user.value) && !canUseAI);
              && (ignored ==> context.None? && messages == old(messages) && sessions == old(sessions)
                              && stored == old(stored)
                              && inputMessage == old(inputMessage) && isTyping == old(isTyping))
              && (!ignored ==> context == Some(ContextWindow(old(messages)))
                               && messages == old(messages)
                                  + [Message(NatToString(now), UserRole, old(inputMessage), now, None, None),
                                     ReplyMessage(now, reply)]
                               && (old(HasCurrent()) ==> sessions == Retitled(old(sessions), old(currentSessionId).value, messages, now))
                               && (!old(HasCurrent()) ==> sessions == old(sessions))
                               && stored == (if old(HasCurrent()) then Some(sessions) else old(stored))
                               && inputMessage == "" && !isTyping)
      ensures currentSessionId == old(currentSessionId)
    {
      context := None;
      if Trim(inputMessage) == "" || user.None? {
        return;
      }
      if !configured {
        return;
      }
      if AIHook.Gated(user.value) && !canUseAI {
        return;
      }
      var userMessage := Message(NatToString(now), UserRole, inputMessage, now, None, None);
      var newMessages := messages + [userMessage];
      context := Some(ContextWindow(messages));
      messages := newMessages;
      inputMessage := "";
      isTyping := true;
      var answer := ReplyMessage(now, reply);
      var finalMessages := newMessages + [answer];
      messages := finalMessages;
      UpdateCurrentSession(finalMessages, now);
      isTyping := false;
    }
  }
}
