/**
 * The records shared by the storyboard front-end: scenes as the extraction
 * service returns them, storyboard items as the panel shows them, and chat
 * messages as the chat panel logs them.
 */
module Types {

  datatype Option<+T> = None | Some(value: T)

  /** One narrative unit of a script, as produced by scene extraction. */
  datatype Scene = Scene(sceneNumber: int, description: string, imagePrompt: string)

  /**
   * The `imageUrl` of a storyboard item: `null` before the image call
   * settles, the reserved string "error" when it failed, or a URL.
   */
  datatype ImageUrl = NoImage | ErrorSentinel | Url(href: string)

  /** The sentinel string the source stores in `imageUrl` for a failed image. */
  const ErrorSentinelText: string := "error"

  /** The value `imageUrl` holds at run time: `None` stands for `null`. */
  function RawUrl(u: ImageUrl): Option<string>
  {
    match u
    case NoImage => None
    case ErrorSentinel => Some(ErrorSentinelText)
    case Url(href) => Some(href)
  }

  datatype StoryboardItem = StoryboardItem(scene: Scene, imageUrl: ImageUrl, isLoading: bool)

  datatype Role = User | Model

  datatype Part = Part(text: string)

  datatype ChatMessage = ChatMessage(role: Role, parts: seq<Part>)
}
