/** The `App` component's session state and its event handlers, as an object
    whose fields the handlers update in place. */
module Session {
  import opened Wrappers
  import opened JsText
  import opened Protocol
  import opened Messages
  import opened Reconciler
  import opened Lifecycle
  import opened Facade
  import Backoff

  class App {
    // React state
    var messages: seq<Message>
    var isLoading: bool
    var code: string
    var language: string
    // the current socket (socketRef, and ws once it has opened)
    var socket: SocketState
    // refs
    var retryCount: nat
    var shouldReconnect: bool
    var timer: Option<nat>
    // frames handed to socket.send, oldest first
    var outbox: seq<Request>

    function View(): Chat
      reads this
    {
      Chat(messages, isLoading)
    }

    function Connection(): Conn
      reads this
    {
      Conn(socket, retryCount, shouldReconnect, timer)
    }

    ghost predicate Valid()
      reads this
    {
      Consistent(Connection())
    }

    /** Mounting: initial state, then the first `connect()`. */
    constructor ()
      ensures Valid()
      ensures View() == Chat([], false) && code == "" && language == DefaultLanguage
      ensures Connection() == Mounted && outbox == []
    {
      messages, isLoading := [], false;
      code, language := "", DefaultLanguage;
      retryCount, shouldReconnect, timer := 0, true, None;
      outbox := [];
      socket := Connecting;
    }

    /** The text area's `onChange`. */
    method SetCode(text: string)
      modifies this`code
      ensures code == text
      ensures old(Valid()) ==> Valid()
    {
      code := text;
    }

    /** The language select's `onChange`. */
    method SetLanguage(choice: string)
      modifies this`language
      ensures language == choice
      ensures old(Valid()) ==> Valid()
    {
      language := choice;
    }

    /** `socket.onopen`; the transport fires it on a connecting socket. */
    method OnOpen()
      requires Valid() && socket == Connecting
      modifies this`socket, this`retryCount, this`messages
      ensures Valid()
      ensures Connection() == Lifecycle.OnOpen(old(Connection()))
      ensures messages == Greet(old(messages))
    {
      socket := Open;
      retryCount := 0;
      messages := if messages == [] then [AiText(WelcomeText)] else messages + [AiText(ReconnectedText)];
    }

    /** `socket.onmessage`, given the parsed frame.  The stream invariant
        holds afterwards unless a `PENDING` arrived during a stream. */
    method OnMessage(e: Event)
      modifies this`messages, this`isLoading
      ensures old(Valid()) ==> Valid()
      ensures View() == Step(old(View()), e)
      ensures AtMostOneStream(old(messages)) && (e.Pending? ==> !HasStream(old(messages))) ==>
        AtMostOneStream(messages)
    {
      if AtMostOneStream(messages) && (e.Pending? ==> !HasStream(messages)) {
        StepKeepsAtMostOneStream(View(), e);
      }
      match e
      case Pending =>
        isLoading := true;
        messages := messages + [StreamStart];
      case Delta(text) =>
        messages := AppendToStream(messages, DeltaText(text));
      case Error(message) =>
        var notice := WarningPrefix + ErrorText(message);
        var base := DropLoading(messages);
        messages := if HasStream(base) then ReplaceStream(base, notice) else base + [AiText(notice)];
        isLoading := false;
      case End =>
        messages := FinalizeStream(messages);
        isLoading := false;
      case Completed(review) =>
        messages := messages + [AiText(review)];
        isLoading := false;
      case Unknown(_) =>
    }

    /** `socket.onclose`; the transport fires it once per socket. */
    method OnClose()
      requires Valid() && socket != Closed
      modifies this`socket, this`retryCount, this`timer
      ensures Valid()
      ensures Connection() == Lifecycle.OnClose(old(Connection()))
    {
      socket := Closed;
      if !shouldReconnect {
        return;
      }
      var delay := Backoff.Delay(retryCount);
      retryCount := retryCount + 1;
      timer := Some(delay);
    }

    /** `socket.onerror`: close the socket and let `onclose` retry. */
    method OnError()
      requires Valid()
      modifies this`socket
      ensures Valid()
      ensures Connection() == Lifecycle.OnError(old(Connection()))
    {
      if socket == Connecting || socket == Open {
        socket := Closing;
      }
    }

    /** The reconnect timer fires and runs `connect()`. */
    method FireTimer()
      requires Valid() && timer.Some?
      modifies this`socket, this`timer
      ensures Valid()
      ensures Connection() == Connect(old(Connection()))
    {
      timer := None;
      socket := Connecting;
    }

    /** The mount effect's cleanup on unmount. */
    method Unmount()
      requires Valid()
      modifies this`shouldReconnect, this`timer, this`socket
      ensures Valid()
      ensures Connection() == Cleanup(old(Connection()))
    {
      shouldReconnect := false;
      if timer.Some? {
        timer := None;
      }
      if socket == Open {
        socket := Closing;
      }
    }

    /** `handleReview`: the review button or Enter. */
    method HandleReview()
      modifies this`messages, this`isLoading, this`code, this`outbox
      ensures old(Valid()) ==> Valid()
      ensures var s := Submit(old(View()), old(code), language, socket == Open);
        View() == s.chat && code == s.code &&
        outbox == old(outbox) + (if s.sent.Some? then [s.sent.value] else [])
      ensures socket != Open ==>
        messages == old(messages) + [AiText(DisconnectedText)] && outbox == old(outbox)
    {
      var isOpen := socket == Open;
      if Trim(code) == "" || !isOpen {
        if !isOpen {
          messages := messages + [AiText(DisconnectedText)];
        }
        return;
      }
      var request := Request(code, language, ReviewQuestion);
      messages := messages + [UserMessage(code, language)];
      code := "";
      isLoading := true;
      outbox := outbox + [request];
    }
  }

  /** Three failed connection attempts after mount wait 1000, 2000, 4000 ms. */
  method ReconnectBackoffScenario() returns (delays: seq<nat>)
    ensures delays == [1000, 2000, 4000]
  {
    Backoff.DelaySchedule();
    var app := new App();
    app.OnClose();
    var first := app.timer.value;
    app.FireTimer();
    app.OnClose();
    var second := app.timer.value;
    app.FireTimer();
    app.OnClose();
    delays := [first, second, app.timer.value];
  }

  /** Submitting "x" in Python while the first connection is still being
      made shows one disconnected notice and sends nothing. */
  method SubmitWhileConnectingScenario() returns (log: seq<Message>, sent: seq<Request>)
    ensures log == [AiText(DisconnectedText)] && sent == []
  {
    var app := new App();
    app.SetCode("x");
    app.SetLanguage("Python");
    app.HandleReview();
    log, sent := app.messages, app.outbox;
  }

  /** Because the greeting depends on whether the log is empty, a notice
      shown before the first successful open makes that first open say
      "reconnected" rather than welcome. */
  method NoticeBeforeFirstOpenScenario() returns (log: seq<Message>)
    ensures log == [AiText(DisconnectedText), AiText(ReconnectedText)]
  {
    var app := new App();
    app.HandleReview();
    app.OnOpen();
    log := app.messages;
  }

  /** After unmount and the close it triggers, nothing more is scheduled. */
  method UnmountScenario() returns (pending: Option<nat>, retries: nat)
    ensures pending.None? && retries == 0
  {
    var app := new App();
    app.OnOpen();
    app.Unmount();
    app.OnClose();
    pending, retries := app.timer, app.retryCount;
  }
}
