/** The records the site loads from its two JSON documents, and the
    JavaScript value conventions (`undefined`, truthiness, thrown
    `TypeError`s) the code applies to them. */
module Records {

  /** A JSON field that may be absent (`undefined` or `null`). */
  datatype Option<T> = None | Some(value: T)

  /** A computation that either yields a value or throws a `TypeError`,
      which is what JavaScript does when code dereferences a missing field
      (`undefined.filter(...)`, `null.workExperience`, `undefined.map(...)`). */
  datatype Result<T> = Ok(value: T) | TypeError

  /** One work-experience or project record. The code reads both kinds
      through the same field names, so a record is a loose object whose
      every field may be missing: experiences carry position, company,
      location, dates, skills and achievements; projects carry title,
      technologies, tags, category, icon, year and the `links.demo` and
      `links.code` URLs. */
  datatype Item = Item(
    position: Option<string>,
    title: Option<string>,
    company: Option<string>,
    location: Option<string>,
    startDate: Option<string>,
    endDate: Option<string>,
    description: Option<string>,
    skills: Option<seq<string>>,
    achievements: Option<seq<string>>,
    technologies: Option<seq<string>>,
    tags: Option<seq<string>>,
    category: Option<string>,
    icon: Option<string>,
    year: Option<string>,
    demo: Option<string>,
    code: Option<string>)

  /** A record with every field missing, to build others from. */
  const BlankItem := Item(None, None, None, None, None, None, None, None, None, None, None, None, None, None, None, None)

  /** The decoded `experience.json` document, `{ workExperience: [...] }`. */
  datatype ExperienceDoc = ExperienceDoc(workExperience: Option<seq<Item>>)

  /** The decoded `projects.json` document, `{ projects: [...] }`. */
  datatype ProjectsDoc = ProjectsDoc(projects: Option<seq<Item>>)

  /** A blog teaser shown under the hobbies topic. */
  datatype BlogPost = BlogPost(title: string, date: string, excerpt: string, image: Option<string>, tags: seq<string>)

  /** How loading the JSON documents ended: a fetch failed or the first
      document did not parse (nothing assigned), the experience document
      parsed but the projects document did not, or both parsed. A document
      that parses to `null` is None. */
  datatype LoadOutcome =
    | FailedEarly
    | FailedAtProjects(experience: Option<ExperienceDoc>)
    | Parsed(experience: Option<ExperienceDoc>, projects: Option<ProjectsDoc>)

  /** JavaScript truthiness of an optional string: present and not empty. */
  predicate Truthy(o: Option<string>)
  {
    o.Some? && o.value != ""
  }

  /** `o || fallback` for an optional string. */
  function OrElse(o: Option<string>, fallback: string): string
  {
    if Truthy(o) then o.value else fallback
  }

  /** `o || []` for an optional list (an array is truthy even when empty). */
  function ListOrEmpty<T>(o: Option<seq<T>>): seq<T>
  {
    if o.Some? then o.value else []
  }

  /** `${o}` in a template literal: a missing field prints as "undefined". */
  function Interpolate(o: Option<string>): string
  {
    if o.Some? then o.value else "undefined"
  }
}
