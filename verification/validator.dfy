/**
 * The inbound side: the subscript chains the handler uses to reach into a
 * webhook event, and the gate `is_valid_whatsapp_message` that decides
 * whether an event is dispatched at all.
 */
module Webhook {
  import opened JsonValue

  /** `body["entry"][0]["changes"][0]["value"]`. */
  function ValueOf(body: Json): Result<Json> {
    var entry :- Item(body, "entry");
    var entry0 :- At(entry, 0);
    var changes :- Item(entry0, "changes");
    var change0 :- At(changes, 0);
    Item(change0, "value")
  }

  /** `...["value"]["contacts"][0]["wa_id"]`: the sender's WhatsApp id. */
  function WaIdOf(body: Json): Result<Json> {
    var value :- ValueOf(body);
    var contacts :- Item(value, "contacts");
    var contact0 :- At(contacts, 0);
    Item(contact0, "wa_id")
  }

  /** `...["value"]["contacts"][0]["profile"]["name"]`: the sender's display name. */
  function NameOf(body: Json): Result<Json> {
    var value :- ValueOf(body);
    var contacts :- Item(value, "contacts");
    var contact0 :- At(contacts, 0);
    var profile :- Item(contact0, "profile");
    Item(profile, "name")
  }

  /** `...["value"]["messages"][0]`: the message the event carries. */
  function MessageOf(body: Json): Result<Json> {
    var value :- ValueOf(body);
    var messages :- Item(value, "messages");
    At(messages, 0)
  }

  /**
   * The events the gate lets through, stated link by link: a truthy
   * `object`; a non-empty `entry` list whose first element is a dict; in it a
   * non-empty `changes` list whose first element is a dict; in that a
   * non-empty `value` dict; and in it a `messages` list whose first element
   * is truthy (or a non-empty string, whose first character is truthy too).
   * Nothing is asked of the message's `type`.
   */
  predicate WellFormedEvent(body: Json) {
    && body.Obj?
    && Truthy(Field(body, "object"))
    && var entry := Field(body, "entry");
    && entry.Arr? && |entry.items| > 0 && entry.items[0].Obj?
    && var changes := Field(entry.items[0], "changes");
    && changes.Arr? && |changes.items| > 0 && changes.items[0].Obj?
    && var value := Field(changes.items[0], "value");
    && value.Obj? && Truthy(value)
    && var messages := Field(value, "messages");
    && ((messages.Arr? && |messages.items| > 0 && Truthy(messages.items[0]))
        || (messages.Str? && messages.s != []))
  }

  /**
   * Every link the gate reaches has the container type the next lookup
   * expects: a present, truthy `entry` or `changes` is a list whose first
   * element is a dict, a truthy `value` is a dict, and truthy `messages`
   * are a list or a string. Absent or empty links are allowed anywhere.
   */
  predicate LinksTyped(body: Json) {
    && body.Obj?
    && var entry := Field(body, "entry");
    && (Truthy(entry) ==>
          && entry.Arr? && entry.items[0].Obj?
          && var changes := Field(entry.items[0], "changes");
          && (Truthy(changes) ==>
                && changes.Arr? && changes.items[0].Obj?
                && var value := Field(changes.items[0], "value");
                && (Truthy(value) ==>
                      && value.Obj?
                      && var messages := Field(value, "messages");
                      && (Truthy(messages) ==> messages.Arr? || messages.Str?))))
  }

  /**
   * `is_valid_whatsapp_message(body)`: the value of the `and` chain
   * `body.get("object") and body.get("entry") and ... and
   * body[...]["messages"][0]`, evaluated left to right. Python's `and`
   * yields its first falsy operand, or the last operand when all are truthy;
   * a deeper lookup runs only after the link above it was truthy, so a
   * missing or empty link ends the chain with a falsy value instead of an
   * exception. Each subscript repeats the path from `body`, which reaches
   * the same values as reusing the links already read.
   */
  function IsValidWhatsAppMessage(body: Json): (r: Result<Json>)
    ensures LinksTyped(body) ==> r.Ok?
    ensures (r.Ok? && Truthy(r.value)) <==> WellFormedEvent(body)
    ensures r.Ok? && Truthy(r.value) ==> MessageOf(body) == r
  {
    var marker :- Get(body, "object", Null);
    if !Truthy(marker) then Ok(marker) else
    // From here on `body` is known to be a dict, and a subscript that
    // re-reads a link already found truthy cannot raise: those steps use
    // `.value` where the others propagate their exception.
    var entry := Get(body, "entry", Null).value;
    if !Truthy(entry) then Ok(entry) else
    var entryList := Item(body, "entry").value;
    var entry0 :- At(entryList, 0);
    var changes :- Get(entry0, "changes", Null);
    if !Truthy(changes) then Ok(changes) else
    var changeList := Item(entry0, "changes").value;
    var change0 :- At(changeList, 0);
    var value :- Get(change0, "value", Null);
    if !Truthy(value) then Ok(value) else
    var valueObj := Item(change0, "value").value;
    var messages :- Get(valueObj, "messages", Null);
    if !Truthy(messages) then Ok(messages) else
    var messageList := Item(valueObj, "messages").value;
    At(messageList, 0)
  }
}
