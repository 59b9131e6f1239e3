/**
 * The three payload builders of whatsapp_utils.py. Each returns the dict the
 * source hands to `json.dumps` (the serialised text itself is not modelled),
 * and `Decode` reads back which message a send request asks the Cloud API
 * to deliver. Every builder is proved to round-trip through `Decode`.
 */
module Payloads {
  import opened JsonValue

  /** One reply button of an interactive message. */
  datatype ReplyButton = ReplyButton(id: Json, title: Json)

  /** The message a send request asks for, addressed to `to`. */
  datatype Reply =
    | TextReply(to: Json, body: Json)
    | DocumentReply(to: Json, document: map<string, Json>)
    | ButtonsReply(to: Json, bodyText: Json, buttons: seq<ReplyButton>)

  /** The optional keys of a document object. */
  const DocumentKeys: set<string> := {"id", "link", "caption", "filename"}

  /** Reads the buttons of an interactive message, each `{type: "reply", reply: {id, title}}`. */
  function DecodeButtons(items: seq<Json>): (r: Option<seq<ReplyButton>>)
    ensures r.Some? ==> |r.value| == |items|
  {
    if items == [] then Some([])
    else
      var b := items[0];
      var reply := Field(b, "reply");
      if b.Obj? && b.fields.Keys == {"type", "reply"} && Field(b, "type") == Str("reply")
         && reply.Obj? && reply.fields.Keys == {"id", "title"}
      then
        match DecodeButtons(items[1..])
        case Some(rest) => Some([ReplyButton(reply.fields["id"], reply.fields["title"])] + rest)
        case None => None
      else None
  }

  /**
   * Reads a send request: a dict with `messaging_product: "whatsapp"`, a
   * recipient `to`, a `type` discriminator and the object that type names.
   * Any other shape, or any extra key, reads as no message at all.
   */
  function Decode(data: Json): Option<Reply> {
    if !data.Obj? || Field(data, "messaging_product") != Str("whatsapp") || "to" !in data.fields then None
    else
      var to := data.fields["to"];
      var kind := Field(data, "type");
      if kind == Str("text") then
        var text := Field(data, "text");
        if data.fields.Keys == {"messaging_product", "recipient_type", "to", "type", "text"}
           && Field(data, "recipient_type") == Str("individual")
           && text.Obj? && text.fields.Keys == {"preview_url", "body"}
           && Field(text, "preview_url") == Bool(false)
        then Some(TextReply(to, text.fields["body"]))
        else None
      else if kind == Str("document") then
        var document := Field(data, "document");
        if data.fields.Keys == {"messaging_product", "recipient_type", "to", "type", "document"}
           && Field(data, "recipient_type") == Str("individual")
           && document.Obj? && document.fields.Keys <= DocumentKeys
        then Some(DocumentReply(to, document.fields))
        else None
      else if kind == Str("interactive") then
        var interactive := Field(data, "interactive");
        var body := Field(interactive, "body");
        var action := Field(interactive, "action");
        var buttons := Field(action, "buttons");
        if data.fields.Keys == {"messaging_product", "to", "type", "interactive"}
           && interactive.Obj? && interactive.fields.Keys == {"type", "body", "action"}
           && Field(interactive, "type") == Str("button")
           && body.Obj? && body.fields.Keys == {"text"}
           && action.Obj? && action.fields.Keys == {"buttons"}
           && buttons.Arr?
        then
          match DecodeButtons(buttons.items)
          case Some(bs) => Some(ButtonsReply(to, body.fields["text"], bs))
          case None => None
        else None
      else None
  }

  /** `get_text_message_input(recipient, text)`: a plain text message without link preview. */
  function GetTextMessageInput(recipient: Json, text: Json): (data: Json)
    ensures Decode(data) == Some(TextReply(recipient, text))
  {
    var body := map["preview_url" := Bool(false), "body" := text];
    var data := map[
      "messaging_product" := Str("whatsapp"),
      "recipient_type" := Str("individual"),
      "to" := recipient,
      "type" := Str("text"),
      "text" := Obj(body)];
    assert body.Keys == {"preview_url", "body"};
    assert data.Keys == {"messaging_product", "recipient_type", "to", "type", "text"};
    Obj(data)
  }

  /**
   * The `document` object of `get_document_message_input`: each argument
   * that is truthy is stored under its key, and a falsy one (None, the
   * empty string, ...) leaves its key out.
   */
  function DocumentFields(mediaId: Json, mediaUrl: Json, caption: Json, filename: Json): (d: map<string, Json>)
    ensures d.Keys <= DocumentKeys
    ensures ("id" in d <==> Truthy(mediaId)) && ("id" in d ==> d["id"] == mediaId)
    ensures ("link" in d <==> Truthy(mediaUrl)) && ("link" in d ==> d["link"] == mediaUrl)
    ensures ("caption" in d <==> Truthy(caption)) && ("caption" in d ==> d["caption"] == caption)
    ensures ("filename" in d <==> Truthy(filename)) && ("filename" in d ==> d["filename"] == filename)
  {
    var slots := map["id" := mediaId, "link" := mediaUrl, "caption" := caption, "filename" := filename];
    map k | k in slots && Truthy(slots[k]) :: slots[k]
  }

  /** A map over the document keys that agrees with the truthiness rule key by key is `DocumentFields`. */
  lemma DocumentFieldsByKey(m: map<string, Json>, mediaId: Json, mediaUrl: Json, caption: Json, filename: Json)
    requires m.Keys <= DocumentKeys
    requires ("id" in m <==> Truthy(mediaId)) && ("id" in m ==> m["id"] == mediaId)
    requires ("link" in m <==> Truthy(mediaUrl)) && ("link" in m ==> m["link"] == mediaUrl)
    requires ("caption" in m <==> Truthy(caption)) && ("caption" in m ==> m["caption"] == caption)
    requires ("filename" in m <==> Truthy(filename)) && ("filename" in m ==> m["filename"] == filename)
    ensures m == DocumentFields(mediaId, mediaUrl, caption, filename)
  {
    var d := DocumentFields(mediaId, mediaUrl, caption, filename);
    assert m.Keys == d.Keys;
  }

  /** The envelope `get_document_message_input` wraps around its `document` object. */
  function DocumentMessage(recipient: Json, document: map<string, Json>): (data: Json)
    ensures document.Keys <= DocumentKeys ==> Decode(data) == Some(DocumentReply(recipient, document))
  {
    var data := map[
      "messaging_product" := Str("whatsapp"),
      "recipient_type" := Str("individual"),
      "to" := recipient,
      "type" := Str("document"),
      "document" := Obj(document)];
    assert data.Keys == {"messaging_product", "recipient_type", "to", "type", "document"};
    Obj(data)
  }

  /**
   * `get_document_message_input(recipient, media_id, media_url, caption,
   * filename)`: fills the `document` dict one optional field at a time and
   * wraps it. A key is present in the decoded document exactly when its
   * argument is truthy, and then holds that argument.
   */
  method GetDocumentMessageInput(recipient: Json, mediaId: Json, mediaUrl: Json, caption: Json, filename: Json)
    returns (data: Json)
    ensures data == DocumentMessage(recipient, DocumentFields(mediaId, mediaUrl, caption, filename))
    ensures Decode(data) == Some(DocumentReply(recipient, DocumentFields(mediaId, mediaUrl, caption, filename)))
  {
    var document: map<string, Json> := map[];
    if Truthy(mediaId) {
      document := document["id" := mediaId];
    }
    assert document.Keys <= {"id"} && ("id" in document <==> Truthy(mediaId));
    if Truthy(mediaUrl) {
      document := document["link" := mediaUrl];
    }
    assert document.Keys <= {"id", "link"} && ("link" in document <==> Truthy(mediaUrl));
    if Truthy(caption) {
      document := document["caption" := caption];
    }
    assert document.Keys <= {"id", "link", "caption"} && ("caption" in document <==> Truthy(caption));
    if Truthy(filename) {
      document := document["filename" := filename];
    }
    DocumentFieldsByKey(document, mediaId, mediaUrl, caption, filename);
    data := DocumentMessage(recipient, document);
  }

  /** One `{"type": "reply", "reply": {"id": ..., "title": ...}}` button object. */
  function ReplyButtonObject(id: Json, title: Json): Json {
    Obj(map["type" := Str("reply"), "reply" := Obj(map["id" := id, "title" := title])])
  }

  /** A button object in front of a list reads as that button in front of the list's buttons. */
  lemma DecodeButtonsCons(id: Json, title: Json, rest: seq<Json>)
    ensures DecodeButtons([ReplyButtonObject(id, title)] + rest)
         == (match DecodeButtons(rest)
             case Some(bs) => Some([ReplyButton(id, title)] + bs)
             case None => None)
  {
    var b := ReplyButtonObject(id, title);
    assert b.fields.Keys == {"type", "reply"};
    assert b.fields["reply"].fields.Keys == {"id", "title"};
    assert ([b] + rest)[0] == b && ([b] + rest)[1..] == rest;
  }

  /**
   * `get_interactive_reply_button_input(...)`: an interactive message whose
   * body text is `bodyText` and whose two reply buttons come in argument order.
   */
  function GetInteractiveReplyButtonInput(recipient: Json, bodyText: Json, button1Id: Json, button1Title: Json,
                                          button2Id: Json, button2Title: Json): (data: Json)
    ensures Decode(data) == Some(ButtonsReply(recipient, bodyText,
                                  [ReplyButton(button1Id, button1Title), ReplyButton(button2Id, button2Title)]))
  {
    var buttons := [ReplyButtonObject(button1Id, button1Title), ReplyButtonObject(button2Id, button2Title)];
    var interactive := map[
      "type" := Str("button"),
      "body" := Obj(map["text" := bodyText]),
      "action" := Obj(map["buttons" := Arr(buttons)])];
    var data := map[
      "messaging_product" := Str("whatsapp"),
      "to" := recipient,
      "type" := Str("interactive"),
      "interactive" := Obj(interactive)];
    var last := [ReplyButtonObject(button2Id, button2Title)];
    assert last == last + [] && buttons == [ReplyButtonObject(button1Id, button1Title)] + last;
    assert DecodeButtons([]) == Some([]);
    DecodeButtonsCons(button2Id, button2Title, []);
    assert [ReplyButton(button2Id, button2Title)] + [] == [ReplyButton(button2Id, button2Title)];
    assert DecodeButtons(last) == Some([ReplyButton(button2Id, button2Title)]);
    DecodeButtonsCons(button1Id, button1Title, last);
    assert [ReplyButton(button1Id, button1Title)] + [ReplyButton(button2Id, button2Title)]
        == [ReplyButton(button1Id, button1Title), ReplyButton(button2Id, button2Title)];
    assert DecodeButtons(buttons) == Some([ReplyButton(button1Id, button1Title), ReplyButton(button2Id, button2Title)]);
    assert interactive["body"].fields.Keys == {"text"} && interactive["action"].fields.Keys == {"buttons"};
    assert interactive.Keys == {"type", "body", "action"};
    assert data.Keys == {"messaging_product", "to", "type", "interactive"};
    Obj(data)
  }
}
