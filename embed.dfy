/** The rich-message records of src/embed.rs. */
module Embeds {
  import opened Wrappers

  datatype Thumbnail = Thumbnail(url: string)

  datatype EmbedFooter = EmbedFooter(text: string)

  datatype EmbedField = EmbedField(name: string, value: string, inline: Option<bool>)

  /** `color` is a u32 in the source. */
  datatype Embed = Embed(
    title: string,
    description: string,
    url: Option<string>,
    thumbnail: Option<Thumbnail>,
    footer: Option<EmbedFooter>,
    fields: seq<EmbedField>,
    color: Option<nat>)
}
