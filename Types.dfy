/** The records the site's pages render (src/types/index.ts). Every table
    holding them is static, so they are plain values. */
module Types {

  datatype Option<+T> = None | Some(value: T)

  /** An event card; `date` is a display string and is never parsed. */
  datatype Event = Event(
    id: int,
    title: string,
    date: string,
    location: string,
    description: string,
    image: string,
    isUpcoming: bool,
    registrationLink: Option<string>)

  /** A project card; `team` is declared by the type, but the shipped table
      leaves it out, and the fixtures use the empty list for it. */
  datatype Project = Project(
    id: int,
    title: string,
    description: string,
    image: string,
    category: string,
    team: seq<string>)

  /** One slide of the news carousel. */
  datatype NewsItem = NewsItem(
    id: int,
    title: string,
    date: string,
    description: string,
    image: string)
}
