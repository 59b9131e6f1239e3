# WhatsApp webhook bot core, modelled in Dafny

This project models the decision logic of a WhatsApp Cloud API webhook bot
(`app/utils/whatsapp_utils.py`). The bot works on inbound webhook events as
decoded JSON. A gate (`is_valid_whatsapp_message`) decides whether an event
carries a message at all. A dispatcher (`process_whatsapp_message`) reads the
sender's `wa_id` and the first message, and answers with at most one outbound
message:

- a tap on the `iternary_btn` reply button gets an itinerary document;
- a tap on `more_btn` gets a text;
- any text message gets a two-button menu;
- everything else gets nothing.

Three builders produce the request bodies: text, document and interactive
buttons. A formatter (`process_text_for_whatsapp`) cleans model-generated
text. It deletes `【…】` citation spans, strips surrounding whitespace and turns
`**bold**` into WhatsApp's `*bold*`.

Files:

- `json_value.dfy` (module `JsonValue`): JSON values, and the Python behaviour the code relies on. That is truthiness, `dict.get`, and `[key]`/`[0]` subscripts. A raised `KeyError`, `IndexError`, `TypeError` or `AttributeError` becomes `Err`.
- `payloads.dfy` (module `Payloads`): the three builders. Each returns the dict the source passes to `json.dumps`. `Decode` reads back which message a request body asks for, and every builder is proved to round-trip through it. The document builder fills its dict step by step, so it is a method, proved equal to the declarative `DocumentFields` rule.
- `validator.dfy` (module `Webhook`): the subscript chains for `wa_id`, the profile name and `messages[0]`, plus the gate.
- `dispatcher.dfy` (module `Dispatcher`): `Dispatch` gives the request bodies an event produces. `ProcessWhatsAppMessage` is the handler. It issues those bodies into an `Outbox` object that stands in for the HTTP sends.
- `text_format.dfy` (module `TextFormat`): the two `re.sub` passes as left-to-right scanners, and `strip()`.

The model follows the code. The code has no greeting-keyword check, no
fallback reply for other message types, and no delay between sends. A text
message always gets the menu, and other message types get no reply.

## Model

| member | source | states |
|---|---|---|
| `Payloads.GetTextMessageInput` | app/utils/whatsapp_utils.py:33-42 | The body decodes as a text message to `recipient` carrying `text`. It has `messaging_product` "whatsapp", `recipient_type` "individual" and `preview_url` false, and no other keys. |
| `Payloads.DocumentFields` | app/utils/whatsapp_utils.py:47-55 | Each of `id`, `link`, `caption`, `filename` is in the document exactly when its argument is truthy, and then holds that argument. No other key is present. |
| `Payloads.DocumentFieldsByKey` | app/utils/whatsapp_utils.py:47-55 | The per-key truthiness rule determines the document: any map over the four keys that obeys it equals `DocumentFields`. |
| `Payloads.DocumentMessage` | app/utils/whatsapp_utils.py:56-62 | The envelope decodes as a document message to `recipient` carrying exactly the given document object. |
| `Payloads.GetDocumentMessageInput` | app/utils/whatsapp_utils.py:46-62 | The dict filled by four conditional assignments is `DocumentMessage(recipient, DocumentFields(...))`. Its decoded document follows the truthiness rule. |
| `Payloads.GetInteractiveReplyButtonInput` | app/utils/whatsapp_utils.py:2-17 | The body decodes as an interactive "button" message to `recipient` with the given body text. It has exactly two reply buttons, (button1 id, title) then (button2 id, title). |
| `Webhook.IsValidWhatsAppMessage` | app/utils/whatsapp_utils.py:162-173 | The `and` chain yields a truthy value if and only if all of these hold: `object` is truthy; `entry` is a non-empty list whose first element is a dict; in that dict `changes` is a non-empty list whose first element is a dict; in that dict `value` is a non-empty dict; in it `messages` is a non-empty list whose first element is truthy, or a non-empty string. The message `type` plays no part. When every reached link has the expected container type, the chain never raises: a missing or empty link gives a falsy value. A truthy result is exactly the `messages[0]` the dispatcher reads. |
| `Dispatcher.Dispatch` | app/utils/whatsapp_utils.py:115-159 | An event produces at most one request body. Each body decodes to a message addressed to `contacts[0].wa_id`. Producing any bodies at all requires that the `wa_id`, profile name and message lookups succeed. |
| `Dispatcher.ProcessWhatsAppMessage` | app/utils/whatsapp_utils.py:115-159 | The outbox grows by exactly `Dispatch(body)`'s bodies, in order. If a lookup raises, the handler raises that exception and the outbox is unchanged. What is sent depends on the event alone. |
| `Dispatcher.Outbox.Send` | app/utils/whatsapp_utils.py:70-94 | The request body is appended to what has been sent. |
| `Dispatcher.HandleRedelivery` | app/utils/whatsapp_utils.py:115-159 | Handling the same event twice gives the same outcome twice, and sends the same bodies twice, one copy per delivery. |
| `Dispatcher.MissingSenderSendsNothing` | app/utils/whatsapp_utils.py:116 | An event whose `wa_id` lookup raises makes the handler raise that error, with no reply. |
| `Dispatcher.MissingNameSendsNothing` | app/utils/whatsapp_utils.py:117 | The unused profile-name lookup still runs before any send. If it raises, the handler raises and sends nothing. |
| `Dispatcher.TextMessageGetsMenu` | app/utils/whatsapp_utils.py:147-159 | A `text` message with any body gets exactly one reply. It is an interactive message to `wa_id` with body "Choose an option:" and buttons (`iternary_btn`, "Iternary") then (`more_btn`, "More"). |
| `Dispatcher.TextWithoutBodyRaises` | app/utils/whatsapp_utils.py:147-148 | A `text` message without `text.body` raises before the menu is sent. |
| `Dispatcher.ItineraryButtonGetsDocument` | app/utils/whatsapp_utils.py:124-139 | A `button_reply` with id `iternary_btn` gets exactly one document to `wa_id`: id 676557238187990, caption "Here is your itinerary.", filename itinerary.pdf, and no link. |
| `Dispatcher.MoreButtonGetsText` | app/utils/whatsapp_utils.py:140-144 | A `button_reply` with id `more_btn` gets exactly one text to `wa_id`: "You selected More. Please specify what you need." |
| `Dispatcher.UnknownButtonGetsNothing` | app/utils/whatsapp_utils.py:126-147 | A `button_reply` with any other id gets no reply and no error. It does not fall through into the text branch. |
| `Dispatcher.OtherInteractiveGetsNothing` | app/utils/whatsapp_utils.py:124-126 | An interactive message whose `interactive.type` is not `button_reply`, or that has no `interactive` object, gets no reply and no error. |
| `Dispatcher.OtherTypeGetsNothing` | app/utils/whatsapp_utils.py:124-159 | A message whose `type` is neither `interactive` nor `text` gets no reply and no error. |
| `Dispatcher.GateAdmitsEventWithoutContacts` | app/utils/whatsapp_utils.py:116 | Every event that passes the gate but whose `value` dict has no `contacts` key makes the handler raise KeyError at the `wa_id` lookup, before any send: the gate does not check `contacts`. |
| `TextFormat.CloseFrom` | app/utils/whatsapp_utils.py:99 | From a given index, the lazy `.*?】` ends at the first `】`, provided no newline comes before it. It finds nothing when a newline or the end of the text comes first. |
| `TextFormat.RemoveBracketSpans` | app/utils/whatsapp_utils.py:99-101 | The first substitution never lengthens the text. What it keeps is pinned down by `PlainPrefixKept`, `UnclosedOpenKept` and `RemoveOneSpan`. |
| `TextFormat.RemovalLeavesNoSpan` | app/utils/whatsapp_utils.py:99-101 | After the first substitution the pattern matches nothing: no `【` is followed by a `】` on its line. |
| `TextFormat.SpanFreeUnchanged` | app/utils/whatsapp_utils.py:99-101 | Text in which the pattern matches nothing comes through the first substitution unchanged. |
| `TextFormat.RemovalIdempotent` | app/utils/whatsapp_utils.py:99-101 | The first substitution changes a text if and only if the pattern matches in it. Applying it twice equals applying it once. |
| `TextFormat.RemoveOneSpan` | app/utils/whatsapp_utils.py:99-101 | `【x】` is deleted when `x` has no newline and no `】`, and scanning resumes right after it. |
| `TextFormat.PlainPrefixKept` | app/utils/whatsapp_utils.py:99-101 | Text before the first `【` is copied through the first substitution unchanged, and the rest is processed as if on its own. |
| `TextFormat.UnclosedOpenKept` | app/utils/whatsapp_utils.py:99-101 | A `【` with no `】` after it on its line is no match: it is kept, and scanning resumes right after it. |
| `TextFormat.OneCitationRemoved` | app/utils/whatsapp_utils.py:99-101 | One citation span between two texts without `【` is deleted, and the texts on both sides are kept as they are. |
| `TextFormat.Lead` | app/utils/whatsapp_utils.py:101 | Counts the leading whitespace of a text: everything before it is whitespace, and the character after it is not. |
| `TextFormat.TrimEnd` | app/utils/whatsapp_utils.py:101 | The result is a prefix of the text followed only by whitespace, and it does not end in whitespace. |
| `TextFormat.Strip` | app/utils/whatsapp_utils.py:101 | `strip()` gives the slice of the text between its leading and trailing whitespace. The slice is empty or starts and ends with a non-whitespace character. |
| `TextFormat.StripKeepsTrimmed` | app/utils/whatsapp_utils.py:101 | A text that starts and ends with a non-whitespace character comes through `strip()` unchanged. |
| `TextFormat.StarsFrom` | app/utils/whatsapp_utils.py:104 | From a given index, the lazy `(.*?)\*\*` ends at the first `**`, provided no newline comes before it. It finds nothing when a newline or the end of the text comes first. |
| `TextFormat.ToWhatsAppBold` | app/utils/whatsapp_utils.py:104-110 | The second substitution never lengthens the text, and shortens it by an even number of characters. `BoldOneSpan` shows that one match costs two. What it keeps is pinned down by `BoldPlainPrefixKept`, `LoneStarKept`, `UnclosedStarsKept` and `BoldOneSpan`. |
| `TextFormat.BoldKeepsText` | app/utils/whatsapp_utils.py:104-110 | The second substitution removes only asterisks: the other characters survive, in order. |
| `TextFormat.NoDoubleStarUnchanged` | app/utils/whatsapp_utils.py:104-110 | Text without `**` comes through the second substitution unchanged. |
| `TextFormat.BoldOneSpan` | app/utils/whatsapp_utils.py:104-110 | `**x**` becomes `*x*` when `x` has no newline, no `**` and no trailing `*`, and scanning resumes right after it. |
| `TextFormat.BoldPlainPrefixKept` | app/utils/whatsapp_utils.py:104-110 | Text without an asterisk is copied through the second substitution unchanged, and the rest is processed as if on its own. |
| `TextFormat.LoneStarKept` | app/utils/whatsapp_utils.py:104-110 | A `*` not followed by another `*` opens no match: it is kept, and scanning resumes right after it. |
| `TextFormat.UnclosedStarsKept` | app/utils/whatsapp_utils.py:104-110 | A `**` with no closing `**` before the next newline opens no match, because `.` does not match a newline. Its first `*` is kept, and scanning resumes at the second. |
| `TextFormat.BoldKeepsEnds` | app/utils/whatsapp_utils.py:104-110 | The output is empty only for empty input. It starts with the input's first character or `*`, and ends with the input's last character or `*`. |
| `TextFormat.ProcessTextForWhatsApp` | app/utils/whatsapp_utils.py:97-112 | The formatted text is never longer than the input, and neither starts nor ends with whitespace. |
| `TextFormat.PlainTextOnlyStripped` | app/utils/whatsapp_utils.py:97-112 | Input containing neither `【` nor `**` is only stripped. |
| `TextFormat.OneCitationOneBold` | app/utils/whatsapp_utils.py:97-112 | A sentence with one citation span and one `**bold**` word, whose parts carry no other markup and no whitespace at either end, loses the span, keeps the text on both sides of it, and gets `*bold*`. |
| `TextFormat.CitationSentence` | app/utils/whatsapp_utils.py:97-112 | "See 【4:0†source】 for **details**." becomes "See  for *details*.": both spaces around the deleted span stay. |

## Left out

- `Dispatcher.Outbox.Send`: records the request body only. The HTTP POST in `send_message`, its headers and URL built from Flask configuration, and its 10-second timeout are network I/O and framework state. So are the 408/500 error responses, which the dispatcher ignores anyway.
- `log_http_response` and every `logging` call: side-effect-only logging. The `json.dumps(message)` used only for the log line is left out too.
- `json.dumps` serialisation: a request body is modelled as the dict handed to `json.dumps`. Key order, escaping and the resulting text belong to the library.
- `generate_response` (upper-casing): it is not called by the core. It is Python's Unicode `str.upper`, a library case-mapping table.
- JSON numbers are integers. Floating-point values, whose truthiness also depends on zero, are not modelled.
- `IsSpace` fixes `strip()`'s whitespace set to the characters Python 3's `str.isspace()` accepts. It is a fixed table, not derived from the Unicode database.
- The text formatter works on code points (`seq<char>`). UTF-16 surrogates and normalisation do not arise.
- The dispatcher reads `message.get("type")` once. The source reads it again at line 147, which gives the same value.
- Each later subscript in the gate's chain restarts at `body`. The model reuses the links already read, which are the same values.
