/** Posting a reply to the owner: render, split, send the chunks in order. */
module TelegramReply {
  import opened GoStrings
  import opened TelegramGrammar
  import opened TelegramRender
  import opened TelegramSplit

  /** `postOwnerText`: the posts that are sent. */
  method PostOwnerText(text: string) returns (posts: seq<string>)
    ensures TrimSpace(text) == "" ==> posts == []
    ensures TrimSpace(text) != "" ==> Shows(Render(TrimSpace(text)), posts)
    ensures AllFit(Trace(Render(TrimSpace(text)), []), 4000) ==> forall k :: 0 <= k < |posts| ==> |posts[k]| <= 4000
  {
    hide Render, Shows, AllFit, Trace, TrimSpace;
    var trimmed := TrimSpace(text);
    if trimmed == "" {
      return [];
    }
    var html := RenderTelegramHTML(trimmed);
    posts := SplitTelegramHTML(html, TELEGRAM_CHUNK_LIMIT);
  }
}
