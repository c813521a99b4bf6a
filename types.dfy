/** The entities the client passes between its components and the generation service. */
module Types {

  /** A saved character of the gallery. */
  datatype Character = Character(id: string, name: string, description: string, avatarUrl: string)

  /** Where the caption bubble sits on a panel, in percent of the panel, and how large it is drawn. */
  datatype TextPosition = TextPosition(x: real, y: real, scale: real)

  /** A generated comic panel, in the shape the comic board reads and writes. */
  datatype ComicPanel = ComicPanel(id: string, imageUrl: string, caption: string, prompt: string, textPosition: TextPosition)

  /** The two texts the text stage produces for one panel. */
  datatype GeneratedPanelData = GeneratedPanelData(caption: string, imagePrompt: string)

  /** The twelve visual styles a user can pick. */
  datatype ComicStyle =
    | ComicBook | Anime | Realistic | BlackWhite | Pixel | Watercolor
    | Cyberpunk | Steampunk | Render3D | Sketch | Retro80s | FlatArt

  /** The string literal that stands for each style. */
  function StyleKeyword(style: ComicStyle): string
  {
    match style
    case ComicBook => "comic-book"
    case Anime => "anime"
    case Realistic => "realistic"
    case BlackWhite => "black-white"
    case Pixel => "pixel"
    case Watercolor => "watercolor"
    case Cyberpunk => "cyberpunk"
    case Steampunk => "steampunk"
    case Render3D => "3d-render"
    case Sketch => "sketch"
    case Retro80s => "retro-80s"
    case FlatArt => "flat-art"
  }

  /** The id accessors the list handlers filter by. */
  function CharacterId(c: Character): string { c.id }
  function PanelId(p: ComicPanel): string { p.id }
}
