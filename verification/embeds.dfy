/**
 * The embed factory: three templates (success, error, info) that force a
 * colour and prefix the description with an emoji, and the base embed,
 * which copies each option that is truthy onto a new embed, supplies a
 * footer naming the user when the caller gives none, and stamps the
 * current time.
 */
module Embeds {
  import opened Common
  import opened Strings

  /** A colour option: a `#rrggbb` string or a number. */
  datatype Color = Hex(code: string) | Rgb(value: int)

  datatype EmbedField = EmbedField(name: string, value: string, inline: bool)

  datatype Author = Author(name: string, iconUrl: Option<string>, url: Option<string>)

  datatype Footer = Footer(text: string, iconUrl: Option<string>)

  /** Every option may be absent. */
  datatype EmbedOptions = EmbedOptions(
    color: Option<Color>,
    title: Option<string>,
    description: Option<string>,
    fields: Option<seq<EmbedField>>,
    author: Option<Author>,
    thumbnail: Option<string>,
    image: Option<string>,
    footer: Option<Footer>)

  /** The user who invoked the command: its id and the URL its avatar is displayed at. */
  datatype User = User(id: string, avatarUrl: string)

  /** JavaScript truthiness of an optional string. */
  predicate Truthy(s: Option<string>) {
    s.Some? && s.value != ""
  }

  /** JavaScript truthiness of an optional colour: the empty string and zero are falsy. */
  predicate ColorTruthy(c: Option<Color>) {
    match c
    case None => false
    case Some(Hex(code)) => code != ""
    case Some(Rgb(v)) => v != 0
  }

  // ---------------------------------------------------------------------
  // Templates
  // ---------------------------------------------------------------------

  datatype Template = SuccessTemplate | ErrorTemplate | InfoTemplate

  /** The colour each template forces. */
  function TemplateColor(t: Template): string {
    match t
    case SuccessTemplate => "#68bb82"
    case ErrorTemplate => "#cf6b6d"
    case InfoTemplate => "#7a81c7"
  }

  /** The emoji each template puts before the description: check mark, cross mark, information source. */
  function Emoji(t: Template): (e: string)
    ensures |e| > 0 && !IsWhitespace(e[0]) && !IsWhitespace(e[|e| - 1])
  {
    match t
    case SuccessTemplate => "✅"
    case ErrorTemplate => "❌"
    case InfoTemplate => "ℹ️"
  }

  /** `{...options, color, description: `${emoji} ${options.description ?? ""}`.trim()}`. */
  function ApplyTemplate(t: Template, options: EmbedOptions): EmbedOptions {
    options.(
      color := Some(Hex(TemplateColor(t))),
      description := Some(Trim(Emoji(t) + " " + options.description.GetOr(""))))
  }

  /**
   * A template overrides the caller's colour and description and passes
   * every other option through unchanged. Its description is the emoji
   * alone when the caller's is absent, empty or only whitespace, and
   * otherwise the emoji, a space and the caller's description without its
   * trailing whitespace; either way it is never empty.
   */
  lemma {:induction false} TemplateOptions(t: Template, options: EmbedOptions)
    ensures ApplyTemplate(t, options).color == Some(Hex(TemplateColor(t)))
    ensures ApplyTemplate(t, options).(color := options.color, description := options.description) == options
    ensures var d := options.description.GetOr("");
      ApplyTemplate(t, options).description
        == Some(if TrimEnd(d) == [] then Emoji(t) else Emoji(t) + " " + TrimEnd(d))
    ensures Truthy(ApplyTemplate(t, options).description)
  {
    var d := options.description.GetOr("");
    var e := Emoji(t);
    var s := e + " " + d;
    TrimStartKeeps(s);
    if TrimEnd(d) == [] {
      assert AllWhitespace(d);
      assert AllWhitespace(" " + d);
      assert s == e + (" " + d);
      TrimEndWhitespaceTail(e, " " + d);
      TrimEndKeeps(e);
    } else {
      TrimEndConcat(e + " ", d);
    }
  }

  // ---------------------------------------------------------------------
  // The embed
  // ---------------------------------------------------------------------

  /** The embed under construction; an unset field is `None`. */
  class Embed {
    var color: Option<Color>
    var title: Option<string>
    var description: Option<string>
    var fields: seq<EmbedField>
    var author: Option<Author>
    var thumbnail: Option<string>
    var image: Option<string>
    var footer: Option<Footer>
    var timestamp: Option<Instant>

    /** A builder with the given fields; `None` (or no fields) is a field that was never set. */
    constructor(color: Option<Color>, title: Option<string>, description: Option<string>,
                fields: seq<EmbedField>, author: Option<Author>, thumbnail: Option<string>,
                image: Option<string>, footer: Option<Footer>, timestamp: Option<Instant>)
      ensures this.color == color && this.title == title && this.description == description
      ensures this.fields == fields && this.author == author && this.thumbnail == thumbnail
      ensures this.image == image && this.footer == footer && this.timestamp == timestamp
    {
      this.color, this.title, this.description, this.fields := color, title, description, fields;
      this.author, this.thumbnail, this.image := author, thumbnail, image;
      this.footer, this.timestamp := footer, timestamp;
    }
  }

  /** A `Date`, as the number of milliseconds since the epoch. */
  type Instant = int

  /** The footer given when the caller supplies none: the user's id and avatar. */
  function DefaultFooter(user: User): (f: Footer)
    ensures f.text == "ID: " + user.id && f.iconUrl == Some(user.avatarUrl)
  {
    Footer("ID: " + user.id, Some(user.avatarUrl))
  }

  /**
   * `createBaseEmbed`: each option is copied only when it is truthy (the
   * field list and the author whenever given); the footer is the caller's
   * or the default one; the timestamp is always `now`.
   */
  method CreateBaseEmbed(user: User, options: EmbedOptions, now: Instant) returns (embed: Embed)
    ensures fresh(embed)
    ensures embed.color == (if ColorTruthy(options.color) then options.color else None)
    ensures embed.title == (if Truthy(options.title) then options.title else None)
    ensures embed.description == (if Truthy(options.description) then options.description else None)
    ensures embed.fields == (if options.fields.Some? then options.fields.value else [])
    ensures embed.author == options.author
    ensures embed.thumbnail == (if Truthy(options.thumbnail) then options.thumbnail else None)
    ensures embed.image == (if Truthy(options.image) then options.image else None)
    ensures embed.footer == Some(if options.footer.Some? then options.footer.value else DefaultFooter(user))
    ensures embed.timestamp == Some(now)
  {
    // A setter runs only when its option is truthy; a field whose setter does not run stays unset.
    var color := if ColorTruthy(options.color) then options.color else None;
    var title := if Truthy(options.title) then options.title else None;
    var description := if Truthy(options.description) then options.description else None;
    var fields := if options.fields.Some? then options.fields.value else [];
    var thumbnail := if Truthy(options.thumbnail) then options.thumbnail else None;
    var image := if Truthy(options.image) then options.image else None;
    var footer := if options.footer.Some? then options.footer.value else DefaultFooter(user);
    embed := new Embed(color, title, description, fields, options.author, thumbnail, image, Some(footer), Some(now));
  }

  /**
   * What a templated embed holds: the template's colour; the description
   * `(emoji + " " + (description ?? "")).trim()`, which is the emoji alone
   * when the caller's text is blank and otherwise the emoji, a space and
   * that text without its trailing whitespace; every other option as the
   * base embed sets it from the caller's options; the caller's or the
   * default footer; and the time of the call.
   */
  ghost predicate TemplatedEmbed(embed: Embed, t: Template, user: User, options: EmbedOptions, now: Instant)
    reads embed
  {
    var d := options.description.GetOr("");
    embed.color == Some(Hex(TemplateColor(t)))
    && embed.description == Some(Trim(Emoji(t) + " " + d))
    && embed.description == Some(if TrimEnd(d) == [] then Emoji(t) else Emoji(t) + " " + TrimEnd(d))
    && embed.title == (if Truthy(options.title) then options.title else None)
    && embed.fields == (if options.fields.Some? then options.fields.value else [])
    && embed.author == options.author
    && embed.thumbnail == (if Truthy(options.thumbnail) then options.thumbnail else None)
    && embed.image == (if Truthy(options.image) then options.image else None)
    && embed.footer == Some(if options.footer.Some? then options.footer.value else DefaultFooter(user))
    && embed.timestamp == Some(now)
  }

  /** A templated embed: the base embed of the template's options. */
  method CreateTemplateEmbed(t: Template, user: User, options: EmbedOptions, now: Instant) returns (embed: Embed)
    ensures fresh(embed)
    ensures TemplatedEmbed(embed, t, user, options, now)
  {
    TemplateOptions(t, options);
    embed := CreateBaseEmbed(user, ApplyTemplate(t, options), now);
  }

  /** `createSuccessEmbed`: the success template, in green with a check mark. */
  method CreateSuccessEmbed(user: User, options: EmbedOptions, now: Instant) returns (embed: Embed)
    ensures fresh(embed)
    ensures embed.color == Some(Hex("#68bb82"))
    ensures TemplatedEmbed(embed, SuccessTemplate, user, options, now)
  {
    embed := CreateTemplateEmbed(SuccessTemplate, user, options, now);
  }

  /** `createErrorEmbed`: the error template, in red with a cross mark. */
  method CreateErrorEmbed(user: User, options: EmbedOptions, now: Instant) returns (embed: Embed)
    ensures fresh(embed)
    ensures embed.color == Some(Hex("#cf6b6d"))
    ensures TemplatedEmbed(embed, ErrorTemplate, user, options, now)
  {
    embed := CreateTemplateEmbed(ErrorTemplate, user, options, now);
  }

  /** `createInfoEmbed`: the info template, in blue with an information sign. */
  method CreateInfoEmbed(user: User, options: EmbedOptions, now: Instant) returns (embed: Embed)
    ensures fresh(embed)
    ensures embed.color == Some(Hex("#7a81c7"))
    ensures TemplatedEmbed(embed, InfoTemplate, user, options, now)
  {
    embed := CreateTemplateEmbed(InfoTemplate, user, options, now);
  }
}
