/** The shapes of src/types/index.ts: transcript lines and the profile data. */
module Records {
  import opened Wrappers

  /** The four values of `OutputLine.type`. */
  datatype LineKind = Command | Output | Error | Ai

  /** One transcript record. Its content is always a string here; the id comes
      from the clock (so it is not guaranteed unique) and the timestamp is the
      clock reading in milliseconds. */
  datatype Line = Line(id: string, content: string, kind: LineKind, timestamp: nat)

  /** A project; `github` and `live` are optional links. */
  datatype Project = Project(
    name: string,
    description: string,
    tech: seq<string>,
    github: Option<string>,
    live: Option<string>)

  datatype Experience = Experience(
    title: string,
    company: string,
    period: string,
    description: string)

  /** The profile. `socials` is an object literal in the source; here it is the
      list of its entries in the order `Object.entries` gives, which is
      insertion order as long as no key is integer-like. */
  datatype Info = Info(
    name: string,
    title: string,
    bio: string,
    skills: seq<string>,
    projects: seq<Project>,
    experience: seq<Experience>,
    socials: seq<(string, string)>,
    resumeLink: string)

  /** JavaScript truthiness of an optional string field: present and non-empty. */
  predicate Present(field: Option<string>) {
    field.Some? && field.value != ""
  }
}
