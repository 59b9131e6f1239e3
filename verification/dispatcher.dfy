/**
 * `process_whatsapp_message`: reads the sender and the message out of a
 * webhook event and sends at most one reply. `Dispatch` states which send
 * requests an event produces, in order; `ProcessWhatsAppMessage` is the
 * handler itself, issuing them into an `Outbox` that stands for the network.
 */
module Dispatcher {
  import opened JsonValue
  import opened Payloads
  import opened Webhook

  const ItineraryButtonId := "iternary_btn"
  const MoreButtonId := "more_btn"
  const ItineraryMediaId := "676557238187990"
  const ItineraryCaption := "Here is your itinerary."
  const ItineraryFilename := "itinerary.pdf"
  const MoreReplyText := "You selected More. Please specify what you need."
  const MenuBodyText := "Choose an option:"

  /** The document sent for the itinerary button: an uploaded media id, a caption, a file name, no link. */
  function ItineraryDocument(waId: Json): Json {
    DocumentMessage(waId, DocumentFields(Str(ItineraryMediaId), Null, Str(ItineraryCaption), Str(ItineraryFilename)))
  }

  /** The two-button menu sent for any text message. */
  function MenuMessage(waId: Json): Json {
    GetInteractiveReplyButtonInput(waId, Str(MenuBodyText), Str(ItineraryButtonId), Str("Iternary"),
                                   Str(MoreButtonId), Str("More"))
  }

  /**
   * The send requests `process_whatsapp_message(body)` issues, in order, or
   * the exception it raises first (before any send). At most one request is
   * issued, and every request is a well-formed message to the sender's
   * `wa_id`.
   */
  function Dispatch(body: Json): (r: Result<seq<Json>>)
    ensures r.Ok? ==> WaIdOf(body).Ok? && NameOf(body).Ok? && MessageOf(body).Ok?
    ensures r.Ok? ==> |r.value| <= 1
    ensures r.Ok? ==> forall data <- r.value :: Decode(data).Some? && Decode(data).value.to == WaIdOf(body).value
  {
    var waId :- WaIdOf(body);
    var name :- NameOf(body);
    var message :- MessageOf(body);
    var kind :- Get(message, "type", Null);
    if kind == Str("interactive") then
      // `message` is a dict here (its `get` just succeeded), so this `get` cannot raise.
      var interactive := Get(message, "interactive", Obj(map[])).value;
      var interactiveType :- Get(interactive, "type", Null);
      if interactiveType != Str("button_reply") then Ok([])
      else
        var buttonReply :- Item(interactive, "button_reply");
        var buttonId :- Get(buttonReply, "id", Null);
        if buttonId == Str(ItineraryButtonId) then Ok([ItineraryDocument(waId)])
        else if buttonId == Str(MoreButtonId) then Ok([GetTextMessageInput(waId, Str(MoreReplyText))])
        else Ok([])
    else if kind == Str("text") then
      var text :- Item(message, "text");
      var messageBody :- Item(text, "body");
      Ok([MenuMessage(waId)])
    else Ok([])
  }

  /** The send requests that have left the handler, oldest first. */
  class Outbox {
    var sent: seq<Json>

    constructor ()
      ensures sent == []
    {
      sent := [];
    }

    /** `send_message(data)`: the request body goes out; its response is not looked at. */
    method Send(data: Json)
      modifies this
      ensures sent == old(sent) + [data]
    {
      sent := sent + [data];
    }
  }

  /**
   * `process_whatsapp_message(body)`: the lookups run first, and a lookup
   * that raises ends the handler before anything is sent. Otherwise the
   * outbox grows by exactly the requests `Dispatch` names, and by nothing
   * else: what is sent depends on the event alone.
   */
  method ProcessWhatsAppMessage(body: Json, outbox: Outbox) returns (r: Result<()>)
    modifies outbox
    ensures Dispatch(body).Ok? ==> r == Ok(()) && outbox.sent == old(outbox.sent) + Dispatch(body).value
    ensures Dispatch(body).Err? ==> r == Err(Dispatch(body).error) && outbox.sent == old(outbox.sent)
  {
    var waId :- WaIdOf(body);
    var name :- NameOf(body);
    var message :- MessageOf(body);
    var kind :- Get(message, "type", Null);
    if kind == Str("interactive") {
      var interactive := Get(message, "interactive", Obj(map[])).value;
      var interactiveType :- Get(interactive, "type", Null);
      if interactiveType == Str("button_reply") {
        var buttonReply :- Item(interactive, "button_reply");
        var buttonId :- Get(buttonReply, "id", Null);
        if buttonId == Str(ItineraryButtonId) {
          var data := GetDocumentMessageInput(waId, Str(ItineraryMediaId), Null, Str(ItineraryCaption), Str(ItineraryFilename));
          outbox.Send(data);
          return Ok(());
        } else if buttonId == Str(MoreButtonId) {
          var data := GetTextMessageInput(waId, Str(MoreReplyText));
          outbox.Send(data);
          return Ok(());
        }
      }
    }
    if kind == Str("text") {
      var text :- Item(message, "text");
      var messageBody :- Item(text, "body");
      var data := MenuMessage(waId);
      outbox.Send(data);
      return Ok(());
    }
    return Ok(());
  }

  /**
   * A redelivered event: handling the same event twice sends the same
   * requests twice, one copy per delivery, and no others.
   */
  method HandleRedelivery(body: Json, outbox: Outbox) returns (first: Result<()>, second: Result<()>)
    modifies outbox
    ensures first == second
    ensures Dispatch(body).Ok? ==> outbox.sent == old(outbox.sent) + Dispatch(body).value + Dispatch(body).value
    ensures Dispatch(body).Err? ==> outbox.sent == old(outbox.sent)
  {
    first := ProcessWhatsAppMessage(body, outbox);
    second := ProcessWhatsAppMessage(body, outbox);
  }

  /** An event whose sender id cannot be read raises, so nothing is sent. */
  lemma MissingSenderSendsNothing(body: Json)
    requires WaIdOf(body).Err?
    ensures Dispatch(body) == Err(WaIdOf(body).error)
  {
  }

  /** The display name is read (and then unused) before any send: without it the handler raises. */
  lemma MissingNameSendsNothing(body: Json)
    requires WaIdOf(body).Ok? && NameOf(body).Err?
    ensures Dispatch(body) == Err(NameOf(body).error)
  {
  }

  /**
   * A text message, whatever its body says, is answered with exactly one
   * interactive message to the sender: body "Choose an option:" and the
   * buttons (iternary_btn, "Iternary") then (more_btn, "More").
   */
  lemma TextMessageGetsMenu(body: Json, waId: Json, message: Json)
    requires WaIdOf(body) == Ok(waId) && NameOf(body).Ok? && MessageOf(body) == Ok(message)
    requires Field(message, "type") == Str("text")
    requires HasKey(message, "text") && HasKey(message.fields["text"], "body")
    ensures Dispatch(body).Ok? && |Dispatch(body).value| == 1
    ensures Decode(Dispatch(body).value[0])
         == Some(ButtonsReply(waId, Str("Choose an option:"),
                              [ReplyButton(Str("iternary_btn"), Str("Iternary")), ReplyButton(Str("more_btn"), Str("More"))]))
  {
  }

  /** A text message without `text.body` raises KeyError or TypeError before the menu is sent. */
  lemma TextWithoutBodyRaises(body: Json, message: Json)
    requires WaIdOf(body).Ok? && NameOf(body).Ok? && MessageOf(body) == Ok(message)
    requires Field(message, "type") == Str("text")
    requires !(HasKey(message, "text") && HasKey(message.fields["text"], "body"))
    ensures Dispatch(body).Err?
  {
  }

  /**
   * Tapping the itinerary button is answered with exactly one document to
   * the sender: media id 676557238187990, caption "Here is your itinerary.",
   * file name itinerary.pdf, and no link.
   */
  lemma ItineraryButtonGetsDocument(body: Json, waId: Json, message: Json)
    requires WaIdOf(body) == Ok(waId) && NameOf(body).Ok? && MessageOf(body) == Ok(message)
    requires Field(message, "type") == Str("interactive")
    requires Field(Field(message, "interactive"), "type") == Str("button_reply")
    requires Field(Field(Field(message, "interactive"), "button_reply"), "id") == Str("iternary_btn")
    ensures Dispatch(body).Ok? && |Dispatch(body).value| == 1
    ensures Decode(Dispatch(body).value[0])
         == Some(DocumentReply(waId, map["id" := Str("676557238187990"), "caption" := Str("Here is your itinerary."),
                                         "filename" := Str("itinerary.pdf")]))
  {
    var expected := map["id" := Str("676557238187990"), "caption" := Str("Here is your itinerary."),
                        "filename" := Str("itinerary.pdf")];
    DocumentFieldsByKey(expected, Str(ItineraryMediaId), Null, Str(ItineraryCaption), Str(ItineraryFilename));
  }

  /** Tapping the More button is answered with exactly one text message to the sender. */
  lemma MoreButtonGetsText(body: Json, waId: Json, message: Json)
    requires WaIdOf(body) == Ok(waId) && NameOf(body).Ok? && MessageOf(body) == Ok(message)
    requires Field(message, "type") == Str("interactive")
    requires Field(Field(message, "interactive"), "type") == Str("button_reply")
    requires Field(Field(Field(message, "interactive"), "button_reply"), "id") == Str("more_btn")
    ensures Dispatch(body).Ok? && |Dispatch(body).value| == 1
    ensures Decode(Dispatch(body).value[0])
         == Some(TextReply(waId, Str("You selected More. Please specify what you need.")))
  {
  }

  /** A button reply with any other id is ignored: no reply, no error, no fall-through to the menu. */
  lemma UnknownButtonGetsNothing(body: Json, message: Json)
    requires WaIdOf(body).Ok? && NameOf(body).Ok? && MessageOf(body) == Ok(message)
    requires Field(message, "type") == Str("interactive")
    requires Field(Field(message, "interactive"), "type") == Str("button_reply")
    requires Field(Field(message, "interactive"), "button_reply").Obj?
    requires Field(Field(Field(message, "interactive"), "button_reply"), "id") !in {Str("iternary_btn"), Str("more_btn")}
    ensures Dispatch(body) == Ok([])
  {
  }

  /**
   * An interactive message of another kind than a button reply (or with no
   * `interactive` object at all) is ignored: no reply, no error.
   */
  lemma OtherInteractiveGetsNothing(body: Json, message: Json)
    requires WaIdOf(body).Ok? && NameOf(body).Ok? && MessageOf(body) == Ok(message)
    requires Field(message, "type") == Str("interactive")
    requires !HasKey(message, "interactive") || message.fields["interactive"].Obj?
    requires Field(Field(message, "interactive"), "type") != Str("button_reply")
    ensures Dispatch(body) == Ok([])
  {
  }

  /** A message of any type other than `interactive` or `text` (image, audio, location, ...) is ignored. */
  lemma OtherTypeGetsNothing(body: Json, message: Json)
    requires WaIdOf(body).Ok? && NameOf(body).Ok? && MessageOf(body) == Ok(message)
    requires message.Obj?
    requires Field(message, "type") !in {Str("interactive"), Str("text")}
    ensures Dispatch(body) == Ok([])
  {
  }

  /**
   * The gate does not look at `contacts`: every event that passes it but
   * whose `value` dict has no `contacts` key makes the handler raise
   * KeyError at the `wa_id` lookup, before any send.
   */
  lemma GateAdmitsEventWithoutContacts(body: Json)
    requires WellFormedEvent(body)
    requires !HasKey(Field(Field(Field(body, "entry").items[0], "changes").items[0], "value"), "contacts")
    ensures IsValidWhatsAppMessage(body).Ok? && Truthy(IsValidWhatsAppMessage(body).value)
    ensures Dispatch(body) == Err(KeyError)
  {
    var entry0 := Field(body, "entry").items[0];
    var change0 := Field(entry0, "changes").items[0];
    assert ValueOf(body) == Ok(Field(change0, "value"));
  }
}
