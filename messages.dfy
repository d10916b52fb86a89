/**
  What the bot sends back: a plain text message (`ctx.send("...")`) or an
  embed (`ctx.send(embed=...)`) reduced to its title, description, named
  fields in insertion order, and footer.  Colours, timestamps and the
  `inline` flag have no bearing on the content and are not represented.
*/
module Messages {
  import opened Wrappers

  datatype Field = Field(name: string, value: string)

  datatype Message =
    | Plain(content: string)
    | Embed(title: Option<string>, description: Option<string>, fields: seq<Field>, footer: Option<string>)

  /** The text of an embed's description, or "" for anything else. */
  function DescriptionText(m: Message): string
  {
    if m.Embed? && m.description.Some? then m.description.value else ""
  }

  /** The reply target of one command invocation: everything sent to it, in order. */
  class Channel {
    var sent: seq<Message>

    constructor ()
      ensures sent == []
    {
      sent := [];
    }

    method Send(m: Message)
      modifies this
      ensures sent == old(sent) + [m]
    {
      sent := sent + [m];
    }
  }

  /** An embed under construction: `discord.Embed(...)` followed by `add_field` and `set_footer` calls. */
  class EmbedBuilder {
    var title: Option<string>
    var description: Option<string>
    var fields: seq<Field>
    var footer: Option<string>

    constructor (title: Option<string>, description: Option<string>)
      ensures this.title == title && this.description == description
      ensures fields == [] && footer == None
    {
      this.title := title;
      this.description := description;
      fields := [];
      footer := None;
    }

    /** Appends a field after the ones already added. */
    method AddField(name: string, value: string)
      modifies this
      ensures fields == old(fields) + [Field(name, value)]
      ensures title == old(title) && description == old(description) && footer == old(footer)
    {
      fields := fields + [Field(name, value)];
    }

    method SetFooter(text: string)
      modifies this
      ensures footer == Some(text)
      ensures title == old(title) && description == old(description) && fields == old(fields)
    {
      footer := Some(text);
    }

    /** The message that `ctx.send(embed=...)` delivers. */
    function Build(): Message
      reads this
    {
      Embed(title, description, fields, footer)
    }
  }
}
