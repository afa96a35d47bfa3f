/**
 * The outbound webhook payload: `WebhookReq` with its list of `Embed`s, the
 * constructor `NewWebhookReq`, the in-place `AddEmbed`, and which JSON fields
 * the struct tags emit (`content` always; `embeds`, `title`, `description`
 * and `color` only when not empty or zero, per `omitempty`).
 */
module Schema {
  import opened Wrappers

  /** One rich embed. `color` is a Go `int`; nothing computes with it, so no
      width is modelled. */
  datatype Embed = Embed(title: string, description: string, color: int)

  /** The value a `WebhookReq` holds, as it is handed to the HTTP client. */
  datatype WebhookBody = WebhookBody(content: string, embeds: seq<Embed>)

  /** The JSON tree the encoder produces, down to the level of which fields
      appear and in which order; the byte encoding is not modelled. */
  datatype Json =
    | JString(str: string)
    | JNumber(num: int)
    | JArray(items: seq<Json>)
    | JObject(fields: seq<Field>)

  datatype Field = Field(key: string, value: Json)

  /** `NewWebhookReq(content)`: a request carrying only the text message,
      which the encoder emits as the single field `content`. */
  function NewWebhookReq(content: string): (r: WebhookBody)
    ensures Encode(r) == JObject([Field("content", JString(content))])
    ensures Decode(Encode(r)) == Some(r)
  {
    WebhookBody(content, [])
  }

  /** A `WebhookReq` object; `AddEmbed` appends to its embeds in place. */
  class WebhookReq {
    var content: string
    var embeds: seq<Embed>

    /** `NewWebhookReq` returning a fresh object. */
    constructor (content: string)
      ensures Body() == NewWebhookReq(content)
    {
      this.content := content;
      this.embeds := [];
    }

    /** The current value of the object. */
    function Body(): WebhookBody
      reads this
    {
      WebhookBody(content, embeds)
    }

    /** Appends one embed: the list grows by exactly that element at the end,
        earlier embeds and the content stay as they were. */
    method AddEmbed(title: string, description: string, color: int)
      modifies this
      ensures embeds == old(embeds) + [Embed(title, description, color)]
      ensures content == old(content)
      ensures |embeds| == |old(embeds)| + 1
      ensures forall i :: 0 <= i < |old(embeds)| ==> embeds[i] == old(embeds)[i]
      ensures Lookup(Encode(Body()).fields, "embeds")
           == Some(JArray(EncodeEmbeds(old(embeds)) + [EncodeEmbed(Embed(title, description, color))]))
    {
      embeds := embeds + [Embed(title, description, color)];
      EncodeEmbedsAppend(old(embeds), Embed(title, description, color));
    }
  }

  // ---------------------------------------------------------------------------
  // Field emission (the struct tags of WebhookReq and Embed)

  /** `Embed`: `title` and `description` omitted when "", `color` omitted when 0,
      the rest in declaration order. */
  function EncodeEmbed(e: Embed): (j: Json)
    ensures j.JObject?
    ensures Lookup(j.fields, "title") == if e.title == "" then None else Some(JString(e.title))
    ensures Lookup(j.fields, "description") == if e.description == "" then None else Some(JString(e.description))
    ensures Lookup(j.fields, "color") == if e.color == 0 then None else Some(JNumber(e.color))
    ensures forall f :: f in j.fields ==> f.key in {"title", "description", "color"}
  {
    var title := if e.title == "" then [] else [Field("title", JString(e.title))];
    var description := if e.description == "" then [] else [Field("description", JString(e.description))];
    var color := if e.color == 0 then [] else [Field("color", JNumber(e.color))];
    LookupAppend(title + description, color, "color");
    LookupAppend(title, description, "color");
    JObject(title + description + color)
  }

  function EncodeEmbeds(es: seq<Embed>): (js: seq<Json>)
    ensures |js| == |es|
    ensures forall i :: 0 <= i < |es| ==> js[i] == EncodeEmbed(es[i])
  {
    if |es| == 0 then [] else [EncodeEmbed(es[0])] + EncodeEmbeds(es[1..])
  }

  /** `WebhookReq`: `content` always, then `embeds` only when the list is non-empty. */
  function Encode(b: WebhookBody): (j: Json)
    ensures j.JObject? && |j.fields| >= 1
    ensures j.fields[0] == Field("content", JString(b.content))
    ensures forall f :: f in j.fields ==> f.key in {"content", "embeds"}
    ensures Lookup(j.fields, "embeds") == if b.embeds == [] then None else Some(JArray(EncodeEmbeds(b.embeds)))
  {
    JObject(
      [Field("content", JString(b.content))] +
      (if b.embeds == [] then [] else [Field("embeds", JArray(EncodeEmbeds(b.embeds)))]))
  }

  /** Appending an embed appends its encoding to the emitted `embeds` array. */
  lemma EncodeEmbedsAppend(es: seq<Embed>, e: Embed)
    ensures EncodeEmbeds(es + [e]) == EncodeEmbeds(es) + [EncodeEmbed(e)]
  {
  }

  // ---------------------------------------------------------------------------
  // Reading the JSON back, with Go's zero value for an absent field

  /** The value of the first field named `key`; `None` when the field is absent. */
  function Lookup(fields: seq<Field>, key: string): (r: Option<Json>)
    ensures r.Some? <==> exists f :: f in fields && f.key == key
  {
    if |fields| == 0 then None
    else if fields[0].key == key then Some(fields[0].value)
    else
      assert forall f :: f in fields <==> f == fields[0] || f in fields[1..];
      Lookup(fields[1..], key)
  }

  /** Looking a key up in two field lists put together finds it in the first when it is there. */
  lemma {:induction false} LookupAppend(a: seq<Field>, b: seq<Field>, key: string)
    ensures Lookup(a + b, key) == if Lookup(a, key).Some? then Lookup(a, key) else Lookup(b, key)
  {
    if |a| > 0 {
      assert (a + b)[1..] == a[1..] + b;
      LookupAppend(a[1..], b, key);
    } else {
      assert a + b == b;
    }
  }

  /** A string field, "" when absent, `None` when of another kind. */
  function StringField(fields: seq<Field>, key: string): Option<string>
  {
    match Lookup(fields, key)
    case None => Some("")
    case Some(JString(s)) => Some(s)
    case Some(_) => None
  }

  /** A number field, 0 when absent, `None` when of another kind. */
  function NumberField(fields: seq<Field>, key: string): Option<int>
  {
    match Lookup(fields, key)
    case None => Some(0)
    case Some(JNumber(n)) => Some(n)
    case Some(_) => None
  }

  function DecodeEmbed(j: Json): Option<Embed>
  {
    if !j.JObject? then None
    else
      match (StringField(j.fields, "title"), StringField(j.fields, "description"), NumberField(j.fields, "color"))
      case (Some(t), Some(d), Some(c)) => Some(Embed(t, d, c))
      case _ => None
  }

  function DecodeEmbeds(js: seq<Json>): Option<seq<Embed>>
  {
    if |js| == 0 then Some([])
    else
      match (DecodeEmbed(js[0]), DecodeEmbeds(js[1..]))
      case (Some(e), Some(es)) => Some([e] + es)
      case _ => None
  }

  /** Decoding a request: `embeds` absent means the empty list. */
  function Decode(j: Json): Option<WebhookBody>
  {
    if !j.JObject? then None
    else
      var embeds := match Lookup(j.fields, "embeds")
        case None => Some([])
        case Some(JArray(items)) => DecodeEmbeds(items)
        case Some(_) => None;
      match (StringField(j.fields, "content"), embeds)
      case (Some(c), Some(es)) => Some(WebhookBody(c, es))
      case _ => None
  }

  /** Omitting empty fields loses nothing: an embed reads back as itself. */
  lemma EmbedRoundTrip(e: Embed)
    ensures DecodeEmbed(EncodeEmbed(e)) == Some(e)
  {
  }

  lemma {:induction false} EmbedsRoundTrip(es: seq<Embed>)
    ensures DecodeEmbeds(EncodeEmbeds(es)) == Some(es)
  {
    if |es| > 0 {
      var js := EncodeEmbeds(es);
      assert js[1..] == EncodeEmbeds(es[1..]);
      EmbedRoundTrip(es[0]);
      EmbedsRoundTrip(es[1..]);
      assert [es[0]] + es[1..] == es;
    }
  }

  /** Omitting empty fields loses nothing: a request reads back as itself. */
  lemma {:induction false} RoundTrip(b: WebhookBody)
    ensures Decode(Encode(b)) == Some(b)
  {
    EmbedsRoundTrip(b.embeds);
  }
}
