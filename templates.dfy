/**
 * The f-string tables of the adapters: a name or description that is either fixed text
 * or text around the destination, as in f"Grand {destination} Hotel".
 */
module Templates {

  datatype Template = Plain(text: string) | Around(before: string, after: string)

  /** The text with the destination put in its place. */
  function Fill(t: Template, place: string): string {
    match t
    case Plain(text) => text
    case Around(before, after) => before + place + after
  }
}
