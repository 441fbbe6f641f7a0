/**
 * The storyboard panel as a decision: which view the panel shows for a
 * storyboard, the global loading flag and the error, and which media each
 * storyboard card shows for its item.
 */
module Panel {
  import opened Types

  /** What a card shows in its image area. */
  datatype Media = PlaceholderMedia | ErrorCard | Image(src: string)

  /** One card of the grid: its heading, its description and its media. */
  datatype Card = Card(sceneNumber: int, description: string, media: Media)

  /** The three views of the panel. */
  datatype PanelView = ErrorView(message: string) | EmptyState | Grid(cards: seq<Card>)

  /** JavaScript truthiness of `error`: `null` and the empty string are false. */
  predicate Truthy(error: Option<string>)
  {
    error.Some? && error.value != ""
  }

  /**
   * The media of one card: a loading item always shows a placeholder; a
   * settled item shows the error card for the sentinel string, the image
   * for any other non-empty URL, and a placeholder for `null` or "".
   */
  function ItemMedia(item: StoryboardItem): (m: Media)
    ensures item.isLoading ==> m == PlaceholderMedia
    ensures m == ErrorCard <==> !item.isLoading && RawUrl(item.imageUrl) == Some(ErrorSentinelText)
    ensures m.Image? <==>
      !item.isLoading && item.imageUrl.Url? && item.imageUrl.href != "" && item.imageUrl.href != ErrorSentinelText
    ensures m.Image? ==> m.src == item.imageUrl.href
    ensures m == PlaceholderMedia <==> item.isLoading || RawUrl(item.imageUrl) in {None, Some("")}
  {
    if item.isLoading then PlaceholderMedia
    else
      match RawUrl(item.imageUrl)
      case None => PlaceholderMedia
      case Some(url) =>
        if url == ErrorSentinelText then ErrorCard
        else if url != "" then Image(url)
        else PlaceholderMedia
  }

  /** The card of an item: headed by its scene number, with its description and media. */
  function CardFor(item: StoryboardItem): (c: Card)
    ensures c.sceneNumber == item.scene.sceneNumber && c.description == item.scene.description
    ensures c.media == ItemMedia(item)
  {
    Card(item.scene.sceneNumber, item.scene.description, ItemMedia(item))
  }

  /**
   * The panel: a truthy error wins over everything, then an empty
   * storyboard with nothing loading shows the empty state, and otherwise
   * the grid shows one card per item in storyboard order (no cards while
   * loading has just started).
   */
  function Render(storyboard: seq<StoryboardItem>, isLoading: bool, error: Option<string>): (v: PanelView)
    ensures v.ErrorView? <==> Truthy(error)
    ensures v.ErrorView? ==> v.message == error.value
    ensures v == EmptyState <==> !Truthy(error) && storyboard == [] && !isLoading
    ensures v.Grid? <==> !Truthy(error) && (storyboard != [] || isLoading)
    ensures v.Grid? ==>
      |v.cards| == |storyboard| && forall i :: 0 <= i < |storyboard| ==> v.cards[i] == CardFor(storyboard[i])
  {
    if Truthy(error) then ErrorView(error.value)
    else if storyboard == [] && !isLoading then EmptyState
    else Grid(seq(|storyboard|, i requires 0 <= i < |storyboard| => CardFor(storyboard[i])))
  }
}
