/** The chat state shared by the page: the message list, the typing and loading flags and
    the last error, with the list persisted to local storage on every change. The chat
    service call is a parameter: its result is given. */
module ChatContext {
  import opened Text
  import opened Common

  /** A point in time, as `new Date()` gives it; its value is opaque here. */
  type Time = int

  datatype Message = Message(sender: Sender, text: string, timestamp: Option<Time>)

  /** `ChatService.sendMessage`'s result: it never throws, and reports failure in `error`. */
  datatype ChatResponse = ChatResponse(response: string, error: Option<string>)

  /** The request handed to the chat service: the trimmed message, the history and the model. */
  datatype SendRequest = SendRequest(message: string, history: seq<Message>, model: Option<string>)

  /** What local storage holds under "chatMessages" at mount: nothing (or the empty string),
      text that is not a JSON list, or a list of messages. */
  datatype Saved = NothingSaved | Malformed | SavedList(messages: seq<Message>)

  /** A result whose `error` is truthy is a failure (`if (result.error) throw ...`). */
  predicate Failed(r: ChatResponse) {
    r.error.Some? && r.error.value != ""
  }

  const FailurePrefix: string := FailureMark + "Error**" + ": Unable to get response from AI. "

  /** The text of the bot message the turn ends with: the reply, or the failure annotation
      followed by the service's error message. */
  function BotText(r: ChatResponse): (t: string)
    ensures !Failed(r) ==> t == r.response
    ensures Failed(r) ==> |t| > |FailurePrefix| && t[..|FailurePrefix|] == FailurePrefix
                          && t[|FailurePrefix|..] == r.error.value
  {
    if Failed(r) then FailurePrefix + r.error.value else r.response
  }

  /** The load-time backfill: every message keeps its sender, text and position, a message
      with a timestamp keeps it, and a message without one gets `now`. */
  function Backfill(ms: seq<Message>, now: Time): (r: seq<Message>)
    ensures |r| == |ms|
    ensures forall k :: 0 <= k < |r| ==>
              r[k].sender == ms[k].sender && r[k].text == ms[k].text && r[k].timestamp.Some?
              && (ms[k].timestamp.Some? ==> r[k].timestamp == ms[k].timestamp)
              && (ms[k].timestamp.None? ==> r[k].timestamp == Some(now))
  {
    if ms == [] then []
    else
      var m := ms[0];
      [m.(timestamp := if m.timestamp.Some? then m.timestamp else Some(now))] + Backfill(ms[1..], now)
  }

  /** Backfilling a list whose messages all have timestamps changes nothing. */
  lemma {:induction false} BackfillIdempotent(ms: seq<Message>, now: Time, later: Time)
    ensures Backfill(Backfill(ms, now), later) == Backfill(ms, now)
  {
    if ms != [] {
      BackfillIdempotent(ms[1..], now, later);
      assert Backfill(ms, now)[1..] == Backfill(ms[1..], now);
    }
  }

  /** The message list after mount: the backfilled saved list, or empty when nothing usable
      was saved. */
  function LoadedMessages(saved: Saved, now: Time): seq<Message> {
    match saved
    case NothingSaved => []
    case Malformed => []
    case SavedList(ms) => Backfill(ms, now)
  }

  class ChatProvider {
    var messages: seq<Message>
    var isTyping: bool
    var isLoading: bool
    var error: Option<string>
    /** The list as last written to local storage; `None` once it has been removed. */
    var persisted: Option<seq<Message>>

    /** Local storage holds exactly the current list. */
    ghost predicate Valid()
      reads this
    {
      persisted == Some(messages)
    }

    /** Mount: the state starts empty, the saved list is loaded, and the save effect writes
      the loaded list back. */
    constructor (saved: Saved, now: Time)
      ensures Valid()
      ensures messages == LoadedMessages(saved, now)
      ensures !isTyping && !isLoading && error.None?
    {
      messages := [];
      isTyping := false;
      isLoading := false;
      error := None;
      persisted := Some([]);
      messages := LoadedMessages(saved, now);
      persisted := Some(messages);
    }

    /** The save effect, which runs after every change of `messages`. */
    method Persist()
      modifies this
      ensures persisted == Some(messages)
      ensures messages == old(messages) && isTyping == old(isTyping) && isLoading == old(isLoading)
      ensures error == old(error)
    {
      persisted := Some(messages);
    }

    /** The part of `sendMessage` before the service call. A blank message changes nothing
        and sends nothing; otherwise the trimmed message is appended as the user's, both
        flags are raised, the error is cleared, and the request carries the list as it was
        before the append. */
    method BeginSend(message: string, model: Option<string>, now: Time) returns (request: Option<SendRequest>)
      requires Valid()
      modifies this
      ensures Valid()
      ensures Trim(message) == "" ==> request.None? && messages == old(messages) && isTyping == old(isTyping)
                                      && isLoading == old(isLoading) && error == old(error)
      ensures Trim(message) != "" ==> request == Some(SendRequest(Trim(message), old(messages), model))
                                      && messages == old(messages) + [Message(User, Trim(message), Some(now))]
                                      && isTyping && isLoading && error.None?
    {
      if Trim(message) == "" {
        return None;
      }
      var history := messages;
      messages := messages + [Message(User, Trim(message), Some(now))];
      Persist();
      isTyping := true;
      error := None;
      isLoading := true;
      request := Some(SendRequest(Trim(message), history, model));
    }

    /** The part of `sendMessage` after the service call: exactly one bot message is appended,
        a failure sets `error` to the service's message, and both flags are lowered. */
    method CompleteSend(result: ChatResponse, now: Time)
      requires Valid()
      modifies this
      ensures Valid()
      ensures messages == old(messages) + [Message(Bot, BotText(result), Some(now))]
      ensures error == (if Failed(result) then result.error else old(error))
      ensures !isTyping && !isLoading
    {
      if Failed(result) {
        error := result.error;
      }
      messages := messages + [Message(Bot, BotText(result), Some(now))];
      Persist();
      isTyping := false;
      isLoading := false;
    }

    /** `sendMessage`, with the service's result given: a non-blank message adds the user's
        message and then the bot's, in that order, and ends with both flags lowered. */
    method SendMessage(message: string, model: Option<string>, result: ChatResponse, sentAt: Time, repliedAt: Time)
      returns (request: Option<SendRequest>)
      requires Valid()
      modifies this
      ensures Valid()
      ensures Trim(message) == "" ==> request.None? && messages == old(messages) && isTyping == old(isTyping)
                                      && isLoading == old(isLoading) && error == old(error)
      ensures Trim(message) != "" ==>
                request == Some(SendRequest(Trim(message), old(messages), model))
                && messages == old(messages) + [Message(User, Trim(message), Some(sentAt)),
                                                Message(Bot, BotText(result), Some(repliedAt))]
                && !isTyping && !isLoading
                && error == (if Failed(result) then result.error else None)
    {
      request := BeginSend(message, model, sentAt);
      if request.Some? {
        CompleteSend(result, repliedAt);
      }
    }

    /** `clearMessages`: the list and the error are cleared and the stored copy removed; the
        save effect then stores the empty list. */
    method ClearMessages()
      modifies this
      ensures messages == [] && error.None? && persisted == Some([])
      ensures isTyping == old(isTyping) && isLoading == old(isLoading)
    {
      messages := [];
      error := None;
      persisted := None;
      Persist();
    }
  }
}
