/** The chat window's conversation protocol: the history of the selected
    session is loaded on every render of the shell while the chat window is
    shown, and a message is sent
    in three steps: it is appended at once as the user's own message, the
    whole list is replaced by the server's history when the reply has been
    stored, and on failure exactly that appended message is taken out again.

    The appended message is told apart by a token no other message in the
    list carries, which stands for the object identity the source compares. */
module Conversation {
  import opened Domain
  import opened Cascade

  const HistoryFailed: string := "Failed to load message history."
  const SendFailed: string := "Failed to send message or get reply."

  /** Messages as the server returns them: each carries its server id. */
  predicate FromServer(list: seq<Message>)
  {
    forall k :: 0 <= k < |list| ==> list[k].origin.Server?
  }

  /** Whether some message of `list` is the local one with `token`. */
  predicate HasToken(list: seq<Message>, token: nat)
  {
    exists k :: 0 <= k < |list| && list[k].origin == Local(token)
  }

  /** The list without the local message carrying `token` (the source's
      `filter(msg => msg !== userMessage)`): every other message stays, even
      one with the same role, text and time; `RemoveTokenSplit` shows the
      others keep their order. */
  function RemoveToken(list: seq<Message>, token: nat): (r: seq<Message>)
    ensures |r| <= |list|
    ensures forall m :: m in r <==> m in list && m.origin != Local(token)
    ensures !HasToken(list, token) ==> r == list
  {
    if list == [] then []
    else
      var rest := RemoveToken(list[1..], token);
      assert !HasToken(list, token) ==> !HasToken(list[1..], token) by {
        if HasToken(list[1..], token) {
          var k :| 0 <= k < |list[1..]| && list[1..][k].origin == Local(token);
          assert list[k + 1].origin == Local(token);
        }
      }
      assert list == [list[0]] + list[1..];
      if list[0].origin == Local(token) then rest else [list[0]] + rest
  }

  /** The filter drops a head carrying the token. */
  lemma RemoveHead(m: Message, after: seq<Message>, token: nat)
    requires m.origin == Local(token) && !HasToken(after, token)
    ensures RemoveToken([m] + after, token) == after
  {
    assert ([m] + after)[1..] == after;
  }

  /** The filter keeps a head without the token in front. */
  lemma KeepHead(x: Message, tail: seq<Message>, token: nat)
    requires x.origin != Local(token)
    ensures RemoveToken([x] + tail, token) == [x] + RemoveToken(tail, token)
  {
    assert ([x] + tail)[1..] == tail;
  }

  /** Taking out the one message with `token` from anywhere in the list
      leaves the messages before and after it, in order. */
  lemma {:induction false} RemoveTokenSplit(before: seq<Message>, m: Message, after: seq<Message>, token: nat)
    requires m.origin == Local(token) && !HasToken(before, token) && !HasToken(after, token)
    ensures RemoveToken(before + [m] + after, token) == before + after
    decreases |before|
  {
    if before == [] {
      assert before + after == after && before + [m] + after == [m] + after;
      RemoveHead(m, after, token);
    } else {
      var rest := before[1..];
      assert before[0].origin != Local(token);
      forall k | 0 <= k < |rest| ensures rest[k].origin != Local(token) {
        assert rest[k] == before[k + 1];
      }
      ConsRegroup(before, m, after);
      KeepHead(before[0], rest + [m] + after, token);
      RemoveTokenSplit(rest, m, after, token);
    }
  }

  /** Reading a non-empty prefix as its head and its tail. */
  lemma ConsRegroup(before: seq<Message>, m: Message, after: seq<Message>)
    requires before != []
    ensures before + [m] + after == [before[0]] + (before[1..] + [m] + after)
    ensures before + after == [before[0]] + (before[1..] + after)
  {
    assert before == [before[0]] + before[1..];
  }

  /** Rolling back the optimistic append restores the list as it was before
      the send, as long as nothing else touched the list in between. */
  lemma {:induction false} RollbackRestores(list: seq<Message>, m: Message)
    requires m.origin.Local? && !HasToken(list, m.origin.token)
    ensures RemoveToken(list + [m], m.origin.token) == list
    decreases |list|
  {
    var t := m.origin.token;
    if list == [] {
      assert [] + [m] == [m];
    } else {
      assert (list + [m])[1..] == list[1..] + [m];
      forall k | 0 <= k < |list[1..]| ensures list[1..][k].origin != Local(t) {
        assert list[1..][k] == list[k + 1];
      }
      RollbackRestores(list[1..], m);
      assert list[0] == list[0];
      assert list == [list[0]] + list[1..];
    }
  }

  /** Every local message of `list` carries a token below `bound`. */
  predicate TokensBelow(list: seq<Message>, bound: nat)
  {
    forall k :: 0 <= k < |list| && list[k].origin.Local? ==> list[k].origin.token < bound
  }

  /** A token not yet handed out is carried by no message. */
  lemma FreshToken(list: seq<Message>, bound: nat)
    requires TokensBelow(list, bound)
    ensures !HasToken(list, bound)
  {
    forall k | 0 <= k < |list| ensures list[k].origin != Local(bound) {
      if list[k].origin.Local? {
        assert list[k].origin.token < bound;
      }
    }
  }

  /** Appending a message with the next token keeps the tokens below the next bound. */
  lemma AppendKeepsBelow(list: seq<Message>, bound: nat, m: Message)
    requires TokensBelow(list, bound) && m.origin == Local(bound)
    ensures TokensBelow(list + [m], bound + 1)
  {
    forall k | 0 <= k < |list + [m]| && (list + [m])[k].origin.Local?
      ensures (list + [m])[k].origin.token < bound + 1
    {
      if k < |list| {
        assert (list + [m])[k] == list[k];
      }
    }
  }

  /** Removal goes by identity, not content: a message equal in role, text
      and time to the removed one but carrying a different origin stays. */
  lemma SameTextStays(list: seq<Message>, token: nat, other: Message)
    requires other in list && other.origin != Local(token)
    ensures other in RemoveToken(list, token)
  {
  }

  /** When the server's history has replaced the list before the failure
      arrives, the removal finds nothing and the list stays as the server
      sent it. */
  lemma ReplacedListUntouched(list: seq<Message>, token: nat)
    requires FromServer(list)
    ensures RemoveToken(list, token) == list
  {
    assert !HasToken(list, token) by {
      forall k | 0 <= k < |list| ensures list[k].origin != Local(token) {
        assert list[k].origin.Server?;
      }
    }
  }

  /** The send button is enabled (`ChatWindow.jsx` send button). */
  predicate SendEnabled(isLoading: bool, isSending: bool, newMessage: string, session: Option<Session>)
  {
    !isLoading && !isSending && Trim(newMessage) != [] && session.Some?
  }

  /** What `handleSendMessage` checks before it does anything. */
  predicate SendAccepted(newMessage: string, project: Option<Project>, session: Option<Session>)
  {
    Trim(newMessage) != [] && project.Some? && session.Some?
  }

  /** The message box is disabled (`ChatWindow.jsx` textarea). */
  predicate InputDisabled(isLoading: bool, isSending: bool, session: Option<Session>)
  {
    isLoading || isSending || session.None?
  }

  /** The chat window is only shown with a project selected, and there an
      enabled send button always gets past the handler's checks; with nothing
      in flight the converse holds too. */
  lemma ButtonMatchesGuard(isLoading: bool, isSending: bool, text: string, project: Option<Project>, session: Option<Session>)
    requires project.Some?
    ensures SendEnabled(isLoading, isSending, text, session)
      <==> !isLoading && !isSending && SendAccepted(text, project, session)
  {
  }

  /** Because the shell's busy flag never stays up, in every state the shell
      reaches the send button and the message box depend only on the sending
      flag, the text and the selected session. */
  lemma BusyNeverBlocksSending(authenticated: bool, events: seq<Event>, isSending: bool, text: string)
    ensures var v := Run(Initial(authenticated), events);
      (SendEnabled(v.isLoading, isSending, text, v.selectedSession) <==> !isSending && Trim(text) != [] && v.selectedSession.Some?)
      && (InputDisabled(v.isLoading, isSending, v.selectedSession) <==> isSending || v.selectedSession.None?)
  {
    NeverBusy(Initial(authenticated), events);
  }

  /** The chat window of the selected session. */
  class ChatWindow {
    var messages: seq<Message>
    var newMessage: string
    var isSending: bool
    /** The token the next optimistic message gets. */
    var nextToken: nat
    /** The shell whose selection is shown and whose error slot and busy flag are reported into. */
    const app: App

    /** Every local message in the list carries a token already handed out. */
    ghost predicate Valid()
      reads this
    {
      TokensBelow(messages, nextToken)
    }

    constructor(shell: App)
      ensures app == shell && messages == [] && newMessage == [] && !isSending && Valid()
    {
      app := shell;
      messages := [];
      newMessage := [];
      isSending := false;
      nextToken := 0;
    }

    /** The input box's change handler. */
    method Edit(text: string)
      modifies this
      ensures newMessage == text
      ensures messages == old(messages) && isSending == old(isSending) && nextToken == old(nextToken)
    {
      newMessage := text;
    }

    /** The history effect, up to the request. With a project and a session
        selected it clears the error (the busy flag it raised drops with it)
        and issues the request; otherwise the list is emptied at once. */
    method LoadHistory() returns (issued: bool)
      requires Valid()
      modifies this, app.status
      ensures Valid()
      ensures issued == (app.selectedProject.Some? && app.selectedSession.Some?)
      ensures issued ==> messages == old(messages) && app.status.error == [] && !app.status.isLoading
      ensures !issued ==> messages == [] && unchanged(app.status)
      ensures newMessage == old(newMessage) && isSending == old(isSending) && nextToken == old(nextToken)
    {
      issued := app.selectedProject.Some? && app.selectedSession.Some?;
      if issued {
        app.status.SetLoading(true);
        app.status.HandleError([]);
      } else {
        messages := [];
      }
    }

    /** The history effect, from the response on: the list becomes the
        server's history, or empty with an error on failure. */
    method HistoryResponse(outcome: Fetch<seq<Message>>)
      requires Valid() && (outcome.Fetched? ==> FromServer(outcome.value))
      modifies this, app.status
      ensures Valid()
      ensures outcome.Fetched? ==> messages == outcome.value && app.status.error == old(app.status.error)
      ensures outcome.FetchFailed? ==> messages == [] && app.status.error == HistoryFailed
      ensures !app.status.isLoading
      ensures newMessage == old(newMessage) && isSending == old(isSending) && nextToken == old(nextToken)
    {
      match outcome {
        case Fetched(list) =>
          messages := list;
        case FetchFailed =>
          app.status.HandleError(HistoryFailed);
          messages := [];
      }
      app.status.SetLoading(false);
    }

    /** The optimistic append of `handleSendMessage`: the message takes the
        next token, the input is cleared and sending starts. */
    method Append(m: Message)
      requires Valid() && m.origin == Local(nextToken)
      modifies this
      ensures Valid() && !HasToken(old(messages), old(nextToken))
      ensures messages == old(messages) + [m] && nextToken == old(nextToken) + 1
      ensures newMessage == [] && isSending
    {
      FreshToken(messages, nextToken);
      AppendKeepsBelow(messages, nextToken, m);
      messages, nextToken, newMessage, isSending := messages + [m], nextToken + 1, [], true;
    }

    /** `handleSendMessage`, up to the request. A blank input or a missing
        selection returns at once and changes nothing. Otherwise the user's
        message (stamped `now`) is appended with a fresh token, the input is
        cleared, sending starts and the error is cleared. */
    method Send(now: string) returns (token: Option<nat>)
      requires Valid()
      modifies this, app.status
      ensures Valid()
      ensures token.Some? == SendAccepted(old(newMessage), app.selectedProject, app.selectedSession)
      ensures token.None? ==> unchanged(this) && unchanged(app.status)
      ensures token.Some? ==> token.value == old(nextToken) && !HasToken(old(messages), token.value)
      ensures token.Some? ==> messages == old(messages) + [Message(Local(token.value), User, old(newMessage), now)]
      ensures token.Some? ==> newMessage == [] && isSending && nextToken == old(nextToken) + 1
      ensures token.Some? ==> app.status.error == [] && !app.status.isLoading
    {
      if !SendAccepted(newMessage, app.selectedProject, app.selectedSession) {
        token := None;
      } else {
        var t := nextToken;
        Append(Message(Local(t), User, newMessage, now));
        app.status.HandleError([]);
        token := Some(t);
      }
    }

    /** `handleKeyDown`: Enter without Shift submits the message exactly as
        the send button does; any other key leaves everything to the text box. */
    method KeyDown(enter: bool, shift: bool, now: string) returns (token: Option<nat>)
      requires Valid()
      modifies this, app.status
      ensures Valid()
      ensures !(enter && !shift) ==> token.None? && unchanged(this) && unchanged(app.status)
      ensures enter && !shift ==> (token.Some? <==> SendAccepted(old(newMessage), app.selectedProject, app.selectedSession))
      ensures token.None? ==> unchanged(this) && unchanged(app.status)
      ensures token.Some? ==> token.value == old(nextToken) && !HasToken(old(messages), token.value)
      ensures token.Some? ==> messages == old(messages) + [Message(Local(token.value), User, old(newMessage), now)]
      ensures token.Some? ==> newMessage == [] && isSending && nextToken == old(nextToken) + 1
      ensures token.Some? ==> app.status.error == [] && !app.status.isLoading
    {
      token := None;
      if enter && !shift {
        token := Send(now);
      }
    }

    /** `handleSendMessage`, from the response on. `outcome` is the refetched
        history when both the send and the refetch succeeded, and a failure
        when either failed. Success replaces the whole list; failure removes
        only the message with `token` and reports; the input is not restored. */
    method SendResponse(token: nat, outcome: Fetch<seq<Message>>)
      requires Valid() && (outcome.Fetched? ==> FromServer(outcome.value))
      modifies this, app.status
      ensures Valid()
      ensures outcome.Fetched? ==> messages == outcome.value && unchanged(app.status)
      ensures outcome.FetchFailed? ==> messages == RemoveToken(old(messages), token)
      ensures outcome.FetchFailed? ==> app.status.error == SendFailed && !app.status.isLoading
      ensures !isSending && newMessage == old(newMessage) && nextToken == old(nextToken)
    {
      match outcome {
        case Fetched(list) =>
          messages := list;
        case FetchFailed =>
          app.status.HandleError(SendFailed);
          messages := RemoveToken(messages, token);
      }
      isSending := false;
    }
  }

  /** A send whose reply fails, with nothing in between: the list is back to
      what it was, the input stays empty and the error is written. It stays
      on screen only until the history effect runs again (`FailedSendRerun`). */
  method FailedSend(shell: App, history: seq<Message>, text: string, now: string)
      returns (before: seq<Message>, after: seq<Message>, input: string, error: string)
    requires FromServer(history) && Trim(text) != []
    requires shell.selectedProject.Some? && shell.selectedSession.Some?
    modifies shell.status
    ensures after == before && before == history && input == [] && error == SendFailed
  {
    var chat := new ChatWindow(shell);
    chat.HistoryResponse(Fetched(history));
    chat.Edit(text);
    before := chat.messages;
    var token := chat.Send(now);
    chat.SendResponse(token.value, FetchFailed);
    RollbackRestores(before, Message(Local(token.value), User, text, now));
    after, input, error := chat.messages, chat.newMessage, shell.status.error;
  }

  /** The history effect depends on the shell's error handler, which is a
      new function on every render of the shell, so every shell render while
      the chat is shown runs the effect again. Writing the send's error is
      such a render: the history is requested anew and the error is cleared
      again at once. */
  method FailedSendRerun(shell: App, history: seq<Message>, text: string, now: string)
      returns (shown: string, reissued: bool, after: string)
    requires FromServer(history) && Trim(text) != []
    requires shell.selectedProject.Some? && shell.selectedSession.Some?
    modifies shell.status
    ensures shown == SendFailed && reissued && after == []
  {
    var chat := new ChatWindow(shell);
    chat.HistoryResponse(Fetched(history));
    chat.Edit(text);
    var token := chat.Send(now);
    chat.SendResponse(token.value, FetchFailed);
    shown := shell.status.error;
    reissued := chat.LoadHistory();
    after := shell.status.error;
  }

  /** A failed history load writes its error through the same handler, so
      the render that shows it runs the effect again: a new request goes out
      and the error is cleared. For as long as the request fails, the window
      keeps requesting. */
  method FailedHistoryRepeats(chat: ChatWindow) returns (shown: string, reissued: bool, after: string)
    requires chat.Valid() && chat.app.selectedProject.Some? && chat.app.selectedSession.Some?
    modifies chat, chat.app.status
    ensures chat.Valid() && chat.messages == []
    ensures shown == HistoryFailed && reissued && after == []
  {
    chat.HistoryResponse(FetchFailed);
    shown := chat.app.status.error;
    reissued := chat.LoadHistory();
    after := chat.app.status.error;
  }
}
