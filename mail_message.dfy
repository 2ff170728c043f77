/** Building an outgoing message from an `EmailCtx` (makeFormattedAddresses
    and MakeEmail in mailer.go).

    The gomail message is a class with the two things MakeEmail changes: the
    header map (field name to list of values) and the body parts.  Its
    address formatter is gomail's own code and is not visible, so it is a
    function the message is created with and about which nothing is assumed.
    SetHeader replaces the values of a field, as the note on the headers
    loop of MakeEmail relies on. */
module MailMessage {

  /** A net/mail address: a display name and the address itself. */
  datatype Address = Address(name: string, address: string)

  /** gomail's FormatAddress(address, name). */
  type Formatter = (string, string) -> string

  /** One body part: a content type and its text. */
  datatype Part = Part(contentType: string, body: string)

  /** What a caller fills in to send an email. */
  datatype EmailCtx = EmailCtx(
    from: Address,
    to: seq<Address>,
    cc: seq<Address>,
    bcc: seq<Address>,
    subject: string,
    plainBody: string,
    htmlBody: string,
    headers: map<string, string>)

  /** A gomail message under construction. */
  class Message {
    const formatAddress: Formatter
    var header: map<string, seq<string>>
    var parts: seq<Part>

    /** gomail.NewMessage: no header fields and no body yet. */
    constructor (formatAddress: Formatter)
      ensures this.formatAddress == formatAddress
      ensures header == map[] && parts == []
    {
      this.formatAddress := formatAddress;
      header := map[];
      parts := [];
    }

    /** SetHeader: the field now has exactly the given values. */
    method SetHeader(field: string, values: seq<string>)
      modifies this
      ensures header == old(header)[field := values] && parts == old(parts)
    {
      header := header[field := values];
    }

    /** SetBody: the message has this one part as its body. */
    method SetBody(contentType: string, body: string)
      modifies this
      ensures parts == [Part(contentType, body)] && header == old(header)
    {
      parts := [Part(contentType, body)];
    }

    /** AddAlternative: one more part, after the existing ones. */
    method AddAlternative(contentType: string, body: string)
      modifies this
      ensures parts == old(parts) + [Part(contentType, body)] && header == old(header)
    {
      parts := parts + [Part(contentType, body)];
    }
  }

  /** Each address of `list` formatted, in order. */
  function FormatAll(format: Formatter, list: seq<Address>): seq<string>
  {
    if list == [] then [] else [format(list[0].address, list[0].name)] + FormatAll(format, list[1..])
  }

  /** FormatAll has one entry per address, the i-th formatting the i-th
      address. */
  lemma {:induction false} FormatAllAt(format: Formatter, list: seq<Address>)
    ensures |FormatAll(format, list)| == |list|
    ensures forall i :: 0 <= i < |list| ==>
      FormatAll(format, list)[i] == format(list[i].address, list[i].name)
  {
    if list != [] {
      FormatAllAt(format, list[1..]);
    }
  }

  /** A list with one entry per address formatting that address is
      FormatAll of the addresses. */
  lemma FormattedIsFormatAll(format: Formatter, list: seq<Address>, arr: seq<string>)
    requires |arr| == |list|
    requires forall i :: 0 <= i < |list| ==> arr[i] == format(list[i].address, list[i].name)
    ensures arr == FormatAll(format, list)
  {
    FormatAllAt(format, list);
  }

  /** makeFormattedAddresses: one formatted entry per address, in input
      order. */
  method MakeFormattedAddresses(m: Message, list: seq<Address>) returns (arr: seq<string>)
    ensures |arr| == |list|
    ensures forall i :: 0 <= i < |list| ==> arr[i] == m.formatAddress(list[i].address, list[i].name)
  {
    arr := [];
    for j := 0 to |list|
      invariant |arr| == j
      invariant forall i :: 0 <= i < j ==> arr[i] == m.formatAddress(list[i].address, list[i].name)
    {
      arr := arr + [m.formatAddress(list[j].address, list[j].name)];
    }
  }

  /** The header fields MakeEmail always sets. */
  const StandardFields: set<string> := {"From", "To", "Cc", "Bcc", "Subject"}

  /** The standard fields as MakeEmail sets them from the context. */
  function StandardHeader(ctx: EmailCtx, format: Formatter): map<string, seq<string>>
  {
    map[
      "From" := FormatAll(format, [ctx.from]),
      "To" := FormatAll(format, ctx.to),
      "Cc" := FormatAll(format, ctx.cc),
      "Bcc" := FormatAll(format, ctx.bcc),
      "Subject" := [ctx.subject]]
  }

  /** The caller's extra headers, each a field with one value. */
  function ExtraHeader(headers: map<string, string>): map<string, seq<string>>
  {
    map k | k in headers :: [headers[k]]
  }

  /** The header of the message MakeEmail builds: the standard fields, then
      every extra header, which overrides a standard field of the same
      name.  The order in which the extra headers are set does not matter,
      as their names are distinct. */
  function EmailHeader(ctx: EmailCtx, format: Formatter): (r: map<string, seq<string>>)
    ensures r.Keys == StandardFields + ctx.headers.Keys
    ensures forall k :: k in ctx.headers ==> r[k] == [ctx.headers[k]]
    ensures "Subject" !in ctx.headers ==> r["Subject"] == [ctx.subject]
  {
    StandardHeader(ctx, format) + ExtraHeader(ctx.headers)
  }

  /** Without an override, an address field has one formatted entry per
      address of the context, in the context's order. */
  lemma AddressFieldInOrder(ctx: EmailCtx, format: Formatter, field: string)
    requires field in {"To", "Cc", "Bcc"} && field !in ctx.headers
    ensures var list := if field == "To" then ctx.to else if field == "Cc" then ctx.cc else ctx.bcc;
      && |EmailHeader(ctx, format)[field]| == |list|
      && forall i :: 0 <= i < |list| ==>
           EmailHeader(ctx, format)[field][i] == format(list[i].address, list[i].name)
  {
    var list := if field == "To" then ctx.to else if field == "Cc" then ctx.cc else ctx.bcc;
    assert EmailHeader(ctx, format)[field] == FormatAll(format, list);
    FormatAllAt(format, list);
  }

  /** Without an override, the From field is the one formatted sender. */
  lemma FromField(ctx: EmailCtx, format: Formatter)
    requires "From" !in ctx.headers
    ensures EmailHeader(ctx, format)["From"] == [format(ctx.from.address, ctx.from.name)]
  {
    FormatAllAt(format, [ctx.from]);
  }

  /** The body parts of the message MakeEmail builds: the plain body, then
      an HTML alternative when there is an HTML body. */
  function EmailParts(ctx: EmailCtx): (r: seq<Part>)
    ensures 1 <= |r| <= 2 && r[0] == Part("text/plain", ctx.plainBody)
    ensures |r| == 2 <==> ctx.htmlBody != ""
    ensures |r| == 2 ==> r[1] == Part("text/html", ctx.htmlBody)
  {
    [Part("text/plain", ctx.plainBody)]
      + if ctx.htmlBody != "" then [Part("text/html", ctx.htmlBody)] else []
  }

  /** A text/html part is present exactly when the HTML body is non-empty. */
  lemma HtmlAlternativeOnlyIfNonEmpty(ctx: EmailCtx)
    ensures (exists i :: 0 <= i < |EmailParts(ctx)| && EmailParts(ctx)[i].contentType == "text/html")
            <==> ctx.htmlBody != ""
  {
    if ctx.htmlBody != "" {
      assert EmailParts(ctx)[1].contentType == "text/html";
    }
  }

  /** The loop over the caller's extra headers: each one is set, replacing
      any value the field had.  Go visits the map in an unspecified order,
      so any pending name may be picked next. */
  method SetExtraHeaders(m: Message, headers: map<string, string>)
    modifies m
    ensures m.header == old(m.header) + ExtraHeader(headers) && m.parts == old(m.parts)
  {
    var pending := headers.Keys;
    while pending != {}
      invariant pending <= headers.Keys
      invariant m.header == old(m.header) + ExtraHeader(headers - pending)
      invariant m.parts == old(m.parts)
      decreases pending
    {
      var field :| field in pending;
      m.SetHeader(field, [headers[field]]);
      assert ExtraHeader(headers - (pending - {field}))
          == ExtraHeader(headers - pending)[field := [headers[field]]];
      pending := pending - {field};
    }
    assert headers - pending == headers;
  }

  /** MakeEmail: a new message whose header is the standard fields
      overridden by the extra headers, and whose body is the plain text
      with an optional HTML alternative. */
  method MakeEmail(ctx: EmailCtx, format: Formatter) returns (m: Message)
    ensures fresh(m) && m.formatAddress == format
    ensures m.header == EmailHeader(ctx, format)
    ensures m.parts == EmailParts(ctx)
  {
    m := new Message(format);
    var from := MakeFormattedAddresses(m, [ctx.from]);
    FormattedIsFormatAll(format, [ctx.from], from);
    m.SetHeader("From", from);
    var to := MakeFormattedAddresses(m, ctx.to);
    FormattedIsFormatAll(format, ctx.to, to);
    m.SetHeader("To", to);
    var cc := MakeFormattedAddresses(m, ctx.cc);
    FormattedIsFormatAll(format, ctx.cc, cc);
    m.SetHeader("Cc", cc);
    var bcc := MakeFormattedAddresses(m, ctx.bcc);
    FormattedIsFormatAll(format, ctx.bcc, bcc);
    m.SetHeader("Bcc", bcc);
    m.SetHeader("Subject", [ctx.subject]);
    assert m.header == StandardHeader(ctx, format);
    SetExtraHeaders(m, ctx.headers);

    m.SetBody("text/plain", ctx.plainBody);
    if ctx.htmlBody != "" {
      m.AddAlternative("text/html", ctx.htmlBody);
    }
  }
}
