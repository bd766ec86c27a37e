/** The JSON body `postErrorToDiscord` sends to the webhook. The HTTP request
    itself is not part of this model. */
module Webhook {
  import opened Values

  const TitlePrefix: string := "An error occurred: "

  /** `0xff0000`, red. */
  const ErrorColor: int := 0xff0000

  datatype Embed = Embed(title: string, description: Option<string>, color: int)

  /** A key whose value is `undefined` is dropped by JSON serialisation, so
      an absent `content` is `None`. */
  datatype Body = Body(content: Option<string>, embeds: seq<Embed>)

  /** The message an embed title was built from, if it has the title's shape. */
  function TitleMessage(title: string): Option<string>
  {
    if |TitlePrefix| <= |title| && title[..|TitlePrefix|] == TitlePrefix
    then Some(title[|TitlePrefix|..])
    else None
  }

  /** The body for an Error: one red embed titled after the Error's message
      and described by its stack, and the content prefix unless it is
      missing or empty (`content || undefined`). */
  function DiscordBody(err: Arg, content: Option<string>): (b: Body)
    requires err.Err?
    ensures |b.embeds| == 1
    ensures TitleMessage(b.embeds[0].title) == Some(err.message)
    ensures b.embeds[0].description == err.stack
    ensures b.embeds[0].color == 16711680
    ensures b.content.Some? <==> Truthy(content)
    ensures b.content.Some? ==> b.content == content
  {
    var title := TitlePrefix + err.message;
    assert title[..|TitlePrefix|] == TitlePrefix;
    assert title[|TitlePrefix|..] == err.message;
    Body(if Truthy(content) then content else None,
         [Embed(title, err.stack, ErrorColor)])
  }

  /** The title of the "boom" Error reads "An error occurred: boom". */
  lemma BoomTitle(stack: Option<string>, ref: nat, content: Option<string>)
    ensures DiscordBody(Err("boom", stack, ref), content).embeds[0].title == "An error occurred: boom"
  {
  }
}
